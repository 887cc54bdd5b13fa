/** The copy-on-write merge of the active global environment into the focused
    tab's collection. The store's list is never changed: the result is a new
    list in which, at most, one entry is replaced. */
module GlobalEnvMerge {
  import opened Base
  import opened Entities

  /** The predicate `c => c.uid === key` that both lookups of the panel use. */
  function HasUid(key: Option<Uid>): Collection -> bool
  {
    (c: Collection) => c.uid == key
  }

  /** The collection with both global-environment fields set. */
  function WithGlobalEnv(c: Collection, vars: VarMap, secrets: VarMap): (r: Collection)
    ensures r.globalEnvironmentVariables == Some(vars) && r.globalEnvSecrets == Some(secrets)
    ensures r.uid == c.uid && r.items == c.items
  {
    c.(globalEnvironmentVariables := Some(vars), globalEnvSecrets := Some(secrets))
  }

  /** The derived collections list: the first collection whose uid equals `key`
      gains the two fields; every other entry, the length and the order stay. */
  function Merge(cols: seq<Collection>, key: Option<Uid>, vars: VarMap, secrets: VarMap): (r: seq<Collection>)
    ensures |r| == |cols|
    ensures forall i :: 0 <= i < |cols| ==>
      r[i] == if IsFirstMatch(cols, HasUid(key), i) then WithGlobalEnv(cols[i], vars, secrets) else cols[i]
    ensures forall i :: 0 <= i < |cols| ==> r[i].uid == cols[i].uid
    ensures (forall i :: 0 <= i < |cols| ==> cols[i].uid != key) ==> r == cols
  {
    match FindIndex(cols, HasUid(key))
    case None => cols
    case Some(i) => cols[i := WithGlobalEnv(cols[i], vars, secrets)]
  }

  /** When the store's collection uids are distinct, exactly the collections
      whose uid equals `key` are replaced, i.e. the one collection of the tab. */
  lemma MergeDistinct(cols: seq<Collection>, key: Option<Uid>, vars: VarMap, secrets: VarMap)
    requires forall i, j :: 0 <= i < j < |cols| ==> cols[i].uid != cols[j].uid
    ensures forall i :: 0 <= i < |cols| ==>
      Merge(cols, key, vars, secrets)[i] ==
        if cols[i].uid == key then WithGlobalEnv(cols[i], vars, secrets) else cols[i]
  {
    var r := Merge(cols, key, vars, secrets);
    forall i | 0 <= i < |cols| && cols[i].uid == key
      ensures IsFirstMatch(cols, HasUid(key), i)
    {
      assert forall j :: 0 <= j < i ==> cols[j].uid != cols[i].uid;
    }
  }

  /** The panel's second lookup, on the merged list, finds the merged copy of
      the collection the first lookup found in the store's list. */
  lemma MergedLookup(cols: seq<Collection>, key: Option<Uid>, vars: VarMap, secrets: VarMap)
    ensures Find(Merge(cols, key, vars, secrets), HasUid(key)) ==
      match Find(cols, HasUid(key))
      case None => None
      case Some(c) => Some(WithGlobalEnv(c, vars, secrets))
  {
    var r := Merge(cols, key, vars, secrets);
    FindIndexPointwise(cols, HasUid(key), r, HasUid(key));
  }

  /** Merging the same environment twice gives the list merged once. */
  lemma MergeIdempotent(cols: seq<Collection>, key: Option<Uid>, vars: VarMap, secrets: VarMap)
    ensures Merge(Merge(cols, key, vars, secrets), key, vars, secrets) == Merge(cols, key, vars, secrets)
  {
    var r := Merge(cols, key, vars, secrets);
    FindIndexPointwise(cols, HasUid(key), r, HasUid(key));
  }
}
