/** The records the panel reads from the application store. Only the fields the
    panel inspects are kept; everything else a tab, item or collection holds is
    invisible to it. */
module Entities {
  import opened Base

  type Uid = string

  /** A flat variable-name to value mapping, as the global-environment resolvers return it. */
  type VarMap = map<string, string>

  /** An open tab. `tabType` is the tag compared against the administrative
      screen names; the pane sizes are the ones persisted on the tab. */
  datatype Tab = Tab(
    uid: Option<Uid>,
    collectionUid: Option<Uid>,
    tabType: Option<string>,
    folderUid: Option<Uid>,
    requestPaneWidth: Option<real>,
    requestPaneHeight: Option<real>)

  /** A request or folder node of a collection's tree. */
  datatype Item = Item(
    uid: Option<Uid>,
    itemType: Option<string>,
    partial: bool,
    loading: bool)

  /** A collection. The two global-environment fields are absent in the store
      and are attached only to the panel's derived copy. */
  datatype Collection = Collection(
    uid: Option<Uid>,
    items: seq<Item>,
    globalEnvironmentVariables: Option<VarMap>,
    globalEnvSecrets: Option<VarMap>)

  /** One variable of a global environment. */
  datatype EnvVariable = EnvVariable(name: string, value: string, enabled: bool, secret: bool)

  /** A global environment, shared by all collections. */
  datatype GlobalEnvironment = GlobalEnvironment(uid: Uid, name: string, variables: seq<EnvVariable>)

  /** The part of the application store the panel selects. */
  datatype StoreState = StoreState(
    tabs: seq<Tab>,
    activeTabUid: Option<Uid>,
    globalEnvironments: seq<GlobalEnvironment>,
    activeGlobalEnvironmentUid: Option<Uid>,
    collections: seq<Collection>,
    responsePaneOrientation: Option<string>,
    screenWidth: real,
    leftSidebarWidth: real)

  /** `getGlobalEnvironmentVariables` and `getGlobalEnvironmentVariablesMasked`:
      their bodies are not part of this model, so they are passed in. */
  type EnvResolver = (seq<GlobalEnvironment>, Option<Uid>) -> VarMap

  /** `findItemInCollection`: its body is not part of this model, so it is passed in. */
  type ItemLookup = (Collection, Option<Uid>) -> Option<Item>
}
