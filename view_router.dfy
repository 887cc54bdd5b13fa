/** The panel's choice of what to show: a chain of early returns over the active
    tab uid, the focused tab, the resolved collection and the item lookup. */
module ViewRouter {
  import opened Base
  import opened Entities
  import GlobalEnvMerge

  /** The administrative screens, each selected by one tab type. */
  datatype Screen = RunnerResults | VariablesEditor | CollectionSettings | CollectionOverview | SecuritySettings

  /** Which request editor the split view embeds. */
  datatype Editor = GraphQLEditor | HttpEditor | NoEditor

  /** Every view the panel can render. */
  datatype View =
    | Welcome
    | ErrorOccurred
    | CollectionNotFound
    | Administrative(screen: Screen, collection: Collection)
    | FolderNotFound(folderUid: Option<Uid>)
    | FolderSettings(collection: Collection, folder: Item)
    | RequestNotFound(itemUid: Uid)
    | RequestNotLoaded(item: Item, collection: Collection)
    | RequestIsLoading(item: Item)
    | RequestPanel(item: Item, collection: Collection, editor: Editor)

  const FOLDER_SETTINGS := "folder-settings"

  /** The tab type that selects an administrative screen. */
  function TypeTag(s: Screen): string
  {
    match s
    case RunnerResults => "collection-runner"
    case VariablesEditor => "variables"
    case CollectionSettings => "collection-settings"
    case CollectionOverview => "collection-overview"
    case SecuritySettings => "security-settings"
  }

  /** The administrative screen a tab type selects, if any. */
  function ScreenFor(tabType: Option<string>): (r: Option<Screen>)
    ensures r.Some? ==> tabType == Some(TypeTag(r.value))
    ensures r.None? ==> forall s: Screen :: tabType != Some(TypeTag(s))
    ensures r.Some? ==> tabType != Some(FOLDER_SETTINGS)
  {
    if tabType == Some("collection-runner") then Some(RunnerResults)
    else if tabType == Some("variables") then Some(VariablesEditor)
    else if tabType == Some("collection-settings") then Some(CollectionSettings)
    else if tabType == Some("collection-overview") then Some(CollectionOverview)
    else if tabType == Some("security-settings") then Some(SecuritySettings)
    else None
  }

  /** Each administrative tab type selects exactly its own screen. */
  lemma ScreenForTypeTag(s: Screen, t: Screen)
    ensures ScreenFor(Some(TypeTag(s))) == Some(s)
    ensures TypeTag(s) == TypeTag(t) ==> s == t
  {
  }

  /** The editor embedded for an item type. */
  function EditorFor(itemType: Option<string>): (r: Editor)
    ensures r == GraphQLEditor <==> itemType == Some("graphql-request")
    ensures r == HttpEditor <==> itemType == Some("http-request")
  {
    if itemType == Some("graphql-request") then GraphQLEditor
    else if itemType == Some("http-request") then HttpEditor
    else NoEditor
  }

  /** The focused tab exists and has a truthy uid and collection uid. */
  predicate WellFormedTab(tab: Option<Tab>)
  {
    tab.Some? && Truthy(tab.value.uid) && Truthy(tab.value.collectionUid)
  }

  /** The collection was found and has a truthy uid. */
  predicate ResolvedCollection(c: Option<Collection>)
  {
    c.Some? && Truthy(c.value.uid)
  }

  /** The checks before the tab type all passed. */
  predicate ReachesTabType(active: Option<Uid>, tab: Option<Tab>, col: Option<Collection>)
  {
    Truthy(active) && WellFormedTab(tab) && ResolvedCollection(col)
  }

  /** The tab is a folder-settings tab that got past the earlier checks. */
  predicate ReachesFolder(active: Option<Uid>, tab: Option<Tab>, col: Option<Collection>)
  {
    ReachesTabType(active, tab, col) && tab.value.tabType == Some(FOLDER_SETTINGS)
  }

  /** The tab is of no administrative type: the item itself is looked up. */
  predicate ReachesItem(active: Option<Uid>, tab: Option<Tab>, col: Option<Collection>)
  {
    ReachesTabType(active, tab, col) && ScreenFor(tab.value.tabType).None?
      && tab.value.tabType != Some(FOLDER_SETTINGS)
  }

  /** The looked-up item exists and has a truthy uid. */
  predicate ItemFound(item: Option<Item>)
  {
    item.Some? && Truthy(item.value.uid)
  }

  /** The view the panel renders. Each `ensures` characterises one view
      completely, so the views are selected by disjoint conditions. */
  function Route(active: Option<Uid>, tab: Option<Tab>, col: Option<Collection>, findItem: ItemLookup): (r: View)
    ensures r.Welcome? <==> !Truthy(active)
    ensures r.ErrorOccurred? <==> Truthy(active) && !WellFormedTab(tab)
    ensures r.CollectionNotFound? <==> Truthy(active) && WellFormedTab(tab) && !ResolvedCollection(col)
    ensures r.Administrative? <==> ReachesTabType(active, tab, col) && ScreenFor(tab.value.tabType).Some?
    ensures r.Administrative? ==>
      Some(r.screen) == ScreenFor(tab.value.tabType) && Some(r.collection) == col
    ensures r.FolderNotFound? <==>
      ReachesFolder(active, tab, col) && findItem(col.value, tab.value.folderUid).None?
    ensures r.FolderNotFound? ==> r.folderUid == tab.value.folderUid
    ensures r.FolderSettings? <==>
      ReachesFolder(active, tab, col) && findItem(col.value, tab.value.folderUid).Some?
    ensures r.FolderSettings? ==>
      Some(r.collection) == col && Some(r.folder) == findItem(col.value, tab.value.folderUid)
    ensures r.RequestNotFound? <==> ReachesItem(active, tab, col) && !ItemFound(findItem(col.value, active))
    ensures r.RequestNotFound? ==> Some(r.itemUid) == active
    ensures r.RequestNotLoaded? <==>
      ReachesItem(active, tab, col) && ItemFound(findItem(col.value, active))
      && findItem(col.value, active).value.partial
    ensures r.RequestIsLoading? <==>
      ReachesItem(active, tab, col) && ItemFound(findItem(col.value, active))
      && !findItem(col.value, active).value.partial && findItem(col.value, active).value.loading
    ensures r.RequestPanel? <==>
      ReachesItem(active, tab, col) && ItemFound(findItem(col.value, active))
      && !findItem(col.value, active).value.partial && !findItem(col.value, active).value.loading
    ensures (r.RequestNotLoaded? || r.RequestIsLoading? || r.RequestPanel?) ==>
      Some(r.item) == findItem(col.value, active)
    ensures (r.RequestNotLoaded? || r.RequestPanel?) ==> Some(r.collection) == col
    ensures r.RequestPanel? ==> r.editor == EditorFor(r.item.itemType)
  {
    if !Truthy(active) then Welcome
    else if !WellFormedTab(tab) then ErrorOccurred
    else if !ResolvedCollection(col) then CollectionNotFound
    else
      var t, c := tab.value, col.value;
      match ScreenFor(t.tabType)
      case Some(s) => Administrative(s, c)
      case None =>
        if t.tabType == Some(FOLDER_SETTINGS) then
          match findItem(c, t.folderUid)
          case None => FolderNotFound(t.folderUid)
          case Some(folder) => FolderSettings(c, folder)
        else
          var item := findItem(c, active);
          if !ItemFound(item) then RequestNotFound(active.value)
          else if item.value.partial then RequestNotLoaded(item.value, c)
          else if item.value.loading then RequestIsLoading(item.value)
          else RequestPanel(item.value, c, EditorFor(item.value.itemType))
  }

  /** The predicate `t => t.uid === activeTabUid`. */
  function TabHasUid(active: Option<Uid>): Tab -> bool
  {
    (t: Tab) => t.uid == active
  }

  /** The first open tab whose uid equals the active tab uid (`find(tabs, t => t.uid === activeTabUid)`). */
  function FocusedTab(tabs: seq<Tab>, active: Option<Uid>): (r: Option<Tab>)
    ensures r.Some? ==> r.value in tabs && r.value.uid == active
    ensures r.Some? ==> exists i: nat :: IsFirstMatch(tabs, TabHasUid(active), i) && r.value == tabs[i]
    ensures r.None? <==> forall i :: 0 <= i < |tabs| ==> tabs[i].uid != active
  {
    Find(tabs, TabHasUid(active))
  }

  /** `focusedTab?.collectionUid`: absent when there is no focused tab. */
  function FocusedCollectionUid(tab: Option<Tab>): Option<Uid>
  {
    if tab.Some? then tab.value.collectionUid else None
  }

  /** The whole panel: find the focused tab, merge the global environment into
      the collections, find the tab's collection in the merged list, route. */
  function Panel(st: StoreState, resolveVars: EnvResolver, resolveSecrets: EnvResolver, findItem: ItemLookup): (v: View)
    ensures v.Welcome? <==> !Truthy(st.activeTabUid)
    ensures v.ErrorOccurred? <==>
      Truthy(st.activeTabUid) && !WellFormedTab(FocusedTab(st.tabs, st.activeTabUid))
    ensures v.CollectionNotFound? <==>
      Truthy(st.activeTabUid) && WellFormedTab(FocusedTab(st.tabs, st.activeTabUid))
      && forall i :: 0 <= i < |st.collections| ==>
           st.collections[i].uid != FocusedTab(st.tabs, st.activeTabUid).value.collectionUid
  {
    var tab := FocusedTab(st.tabs, st.activeTabUid);
    var key := FocusedCollectionUid(tab);
    var vars := resolveVars(st.globalEnvironments, st.activeGlobalEnvironmentUid);
    var secrets := resolveSecrets(st.globalEnvironments, st.activeGlobalEnvironmentUid);
    var cols := GlobalEnvMerge.Merge(st.collections, key, vars, secrets);
    var col := Find(cols, GlobalEnvMerge.HasUid(key));
    GlobalEnvMerge.MergedLookup(st.collections, key, vars, secrets);
    Route(st.activeTabUid, tab, col, findItem)
  }

  /** The collection a view hands to its child component, if any. */
  function ViewCollection(v: View): Option<Collection>
  {
    match v
    case Administrative(_, c) => Some(c)
    case FolderSettings(c, _) => Some(c)
    case RequestNotLoaded(_, c) => Some(c)
    case RequestPanel(_, c, _) => Some(c)
    case _ => None
  }

  /** Every collection the panel hands to a child carries the resolved global
      environment variables and their masked form, and is the store's
      collection of the focused tab in every other respect. */
  lemma {:induction false} PanelCollectionCarriesGlobalEnv(
    st: StoreState, resolveVars: EnvResolver, resolveSecrets: EnvResolver, findItem: ItemLookup)
    ensures var v := Panel(st, resolveVars, resolveSecrets, findItem);
      var vars := resolveVars(st.globalEnvironments, st.activeGlobalEnvironmentUid);
      var secrets := resolveSecrets(st.globalEnvironments, st.activeGlobalEnvironmentUid);
      ViewCollection(v).Some? ==>
        ViewCollection(v).value.globalEnvironmentVariables == Some(vars)
        && ViewCollection(v).value.globalEnvSecrets == Some(secrets)
        && exists c :: c in st.collections && c.uid == ViewCollection(v).value.uid
             && c.items == ViewCollection(v).value.items
  {
    var tab := FocusedTab(st.tabs, st.activeTabUid);
    var key := FocusedCollectionUid(tab);
    var vars := resolveVars(st.globalEnvironments, st.activeGlobalEnvironmentUid);
    var secrets := resolveSecrets(st.globalEnvironments, st.activeGlobalEnvironmentUid);
    GlobalEnvMerge.MergedLookup(st.collections, key, vars, secrets);
    var v := Panel(st, resolveVars, resolveSecrets, findItem);
    if ViewCollection(v).Some? {
      var found := Find(st.collections, GlobalEnvMerge.HasUid(key));
      // Any view that carries a collection got past the collection check.
      assert found.Some?;
      var i: nat :| IsFirstMatch(st.collections, GlobalEnvMerge.HasUid(key), i) && found.value == st.collections[i];
      assert st.collections[i] in st.collections;
    }
  }

  /** One request tab on its own collection, whose item is an HTTP request:
      the split view with the HTTP editor, and no error view. */
  lemma HttpRequestScenario(
    st: StoreState, resolveVars: EnvResolver, resolveSecrets: EnvResolver, findItem: ItemLookup, item: Item)
    requires st.activeTabUid == Some("t1")
    requires st.tabs == [Tab(Some("t1"), Some("c1"), None, None, None, None)]
    requires st.collections == [Collection(Some("c1"), [item], None, None)]
    requires item == Item(Some("t1"), Some("http-request"), false, false)
    requires forall c: Collection :: c.uid == Some("c1") ==> findItem(c, Some("t1")) == Some(item)
    ensures Panel(st, resolveVars, resolveSecrets, findItem).RequestPanel?
    ensures Panel(st, resolveVars, resolveSecrets, findItem).item == item
    ensures Panel(st, resolveVars, resolveSecrets, findItem).editor == HttpEditor
  {
    var vars := resolveVars(st.globalEnvironments, st.activeGlobalEnvironmentUid);
    var secrets := resolveSecrets(st.globalEnvironments, st.activeGlobalEnvironmentUid);
    GlobalEnvMerge.MergedLookup(st.collections, Some("c1"), vars, secrets);
  }

  /** An active tab uid that no open tab carries gives the generic error view. */
  lemma MissingTabScenario(st: StoreState, resolveVars: EnvResolver, resolveSecrets: EnvResolver, findItem: ItemLookup)
    requires st.activeTabUid == Some("t1")
    requires forall i :: 0 <= i < |st.tabs| ==> st.tabs[i].uid != Some("t1")
    ensures Panel(st, resolveVars, resolveSecrets, findItem) == ErrorOccurred
  {
  }

  /** A folder-settings tab whose folder uid resolves nowhere gives the
      folder-not-found view naming that uid. */
  lemma MissingFolderScenario(
    st: StoreState, resolveVars: EnvResolver, resolveSecrets: EnvResolver, findItem: ItemLookup)
    requires st.activeTabUid == Some("t1")
    requires st.tabs == [Tab(Some("t1"), Some("c1"), Some(FOLDER_SETTINGS), Some("f9"), None, None)]
    requires st.collections == [Collection(Some("c1"), [], None, None)]
    requires forall c: Collection :: findItem(c, Some("f9")) == None
    ensures Panel(st, resolveVars, resolveSecrets, findItem) == FolderNotFound(Some("f9"))
  {
    var vars := resolveVars(st.globalEnvironments, st.activeGlobalEnvironmentUid);
    var secrets := resolveSecrets(st.globalEnvironments, st.activeGlobalEnvironmentUid);
    GlobalEnvMerge.MergedLookup(st.collections, Some("c1"), vars, secrets);
  }
}
