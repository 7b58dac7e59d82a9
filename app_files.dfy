/** `writing.appFiles`: the application files copied into the new project,
    as an ordered list of option-guarded groups. */
module AppFiles {
  import opened Config
  import opened FileOps

  /** One entry per template `appFiles` can list. */
  datatype AppFile =
    | ResetCss | StyleCss | VarsCss | IndexHtml | ScriptJs
    | AppView | HomeView | ReduxStore | MobxStore | MobxIndex
    | ServerEntry | SpaRoute | PublicRoute | ApiNotFound | ApiExample | ScopesConst | UserSchema

  const StoreIndex := "src/js/stores/index.js"

  /** The entry as the source lists it: a path, or a `{from, to}` record. */
  function Op(f: AppFile): FileOp
  {
    match f
    case ResetCss => Plain("src/css/reset.css")
    case StyleCss => Plain("src/css/style.css")
    case VarsCss => Plain("src/css/vars.css")
    case IndexHtml => Plain("src/index.html")
    case ScriptJs => Plain("src/js/script.js")
    case AppView => Plain("src/js/containers/App.jsx")
    case HomeView => Plain("src/js/containers/Home.jsx")
    case ReduxStore => Rename("src/js/stores/redux_store.js", StoreIndex)
    case MobxStore => Rename("src/js/stores/mobx_store.js", "src/js/stores/store.js")
    case MobxIndex => Rename("src/js/stores/mobx_index.js", StoreIndex)
    case ServerEntry => Plain("server/index.js")
    case SpaRoute => Plain("server/routes/static/spa.js")
    case PublicRoute => Plain("server/routes/static/public.js")
    case ApiNotFound => Plain("server/routes/api/notFound.js")
    case ApiExample => Plain("server/routes/api/_example.js")
    case ScopesConst => Plain("server/const/Scopes.js")
    case UserSchema => Plain("server/schemas/User.js")
  }

  /** The stylesheets, then the HTML entry, then the script entry. */
  const BaseFiles: seq<AppFile> := [ResetCss, StyleCss, VarsCss, IndexHtml, ScriptJs]

  /** The React branch: the root view, then the routed view, the Redux store
      and the MobX store files, each under its own flag. */
  function ReactFiles(p: Props): seq<AppFile>
  {
    [AppView] + When(p.reactRouter, [HomeView]) + When(p.redux, [ReduxStore]) + When(p.mobx, [MobxStore, MobxIndex])
  }

  /** The Node branch: the server entry, the API routes (and under them the
      auth files), then one static route chosen by React-Router. */
  function NodeFiles(p: Props): seq<AppFile>
  {
    [ServerEntry]
    + When(p.mongo && p.api, [ApiNotFound, ApiExample] + When(p.jwt, [ScopesConst, UserSchema]))
    + (if p.reactRouter then [SpaRoute] else [PublicRoute])
  }

  /** The entries of `appFiles`'s list, in order. */
  function AppFileList(p: Props): seq<AppFile>
  {
    BaseFiles + When(p.react, ReactFiles(p)) + When(p.node, NodeFiles(p))
  }

  /** The list `appFiles` hands to `_copyFile`. */
  function AppFileOps(p: Props): seq<FileOp>
  {
    Map(AppFileList(p), Op)
  }

  /** Reference table: the condition under which each template is copied. */
  predicate Listed(p: Props, f: AppFile)
  {
    match f
    case ResetCss | StyleCss | VarsCss | IndexHtml | ScriptJs => true
    case AppView => p.react
    case HomeView => p.react && p.reactRouter
    case ReduxStore => p.react && p.redux
    case MobxStore | MobxIndex => p.react && p.mobx
    case ServerEntry => p.node
    case SpaRoute => p.node && p.reactRouter
    case PublicRoute => p.node && !p.reactRouter
    case ApiNotFound | ApiExample => p.node && p.mongo && p.api
    case ScopesConst | UserSchema => p.node && p.mongo && p.api && p.jwt
  }

  lemma InBaseFiles(f: AppFile)
    ensures f in BaseFiles <==> f.ResetCss? || f.StyleCss? || f.VarsCss? || f.IndexHtml? || f.ScriptJs?
  {
  }

  lemma InReactFiles(p: Props, f: AppFile)
    ensures f in ReactFiles(p) <==>
      || f == AppView
      || (f == HomeView && p.reactRouter)
      || (f == ReduxStore && p.redux)
      || ((f == MobxStore || f == MobxIndex) && p.mobx)
  {
  }

  lemma InNodeFiles(p: Props, f: AppFile)
    ensures f in NodeFiles(p) <==>
      || f == ServerEntry
      || ((f == ApiNotFound || f == ApiExample) && p.mongo && p.api)
      || ((f == ScopesConst || f == UserSchema) && p.mongo && p.api && p.jwt)
      || (f == SpaRoute && p.reactRouter)
      || (f == PublicRoute && !p.reactRouter)
  {
  }

  /** The list `appFiles` builds holds exactly the templates the table
      selects. */
  lemma AppFilesMatchTable(p: Props, f: AppFile)
    ensures f in AppFileList(p) <==> Listed(p, f)
  {
    InBaseFiles(f);
    InReactFiles(p, f);
    InNodeFiles(p, f);
    InAppFileGroups(p, f);
  }

  lemma InAppFileGroups(p: Props, f: AppFile)
    ensures f in AppFileList(p) <==>
      f in BaseFiles || (p.react && f in ReactFiles(p)) || (p.node && f in NodeFiles(p))
  {
  }

  /** The list starts with the stylesheets, the HTML entry and the script
      entry, in that order; every later group is appended after them. */
  lemma AppFilesStartWithBase(p: Props)
    ensures |AppFileList(p)| >= 5
    ensures AppFileList(p)[..5] == [ResetCss, StyleCss, VarsCss, IndexHtml, ScriptJs]
  {
  }

  /** Without React no view and no store file is listed; with it the root
      view always is, and each of the others exactly under its flag. */
  lemma ReactFilesGated(p: Props)
    ensures AppView in AppFileList(p) <==> p.react
    ensures HomeView in AppFileList(p) <==> p.react && p.reactRouter
    ensures ReduxStore in AppFileList(p) <==> p.react && p.redux
    ensures MobxStore in AppFileList(p) <==> p.react && p.mobx
    ensures MobxIndex in AppFileList(p) <==> p.react && p.mobx
  {
    AppFilesMatchTable(p, AppView);
    AppFilesMatchTable(p, HomeView);
    AppFilesMatchTable(p, ReduxStore);
    AppFilesMatchTable(p, MobxStore);
    AppFilesMatchTable(p, MobxIndex);
  }

  /** With the Node server the server entry and exactly one of the two static
      routes are listed, the single-page route when React-Router is on and the
      public one otherwise; without it none of the three. */
  lemma StaticRouteChoice(p: Props)
    ensures ServerEntry in AppFileList(p) <==> p.node
    ensures SpaRoute in AppFileList(p) <==> p.node && p.reactRouter
    ensures PublicRoute in AppFileList(p) <==> p.node && !p.reactRouter
  {
    AppFilesMatchTable(p, ServerEntry);
    AppFilesMatchTable(p, SpaRoute);
    AppFilesMatchTable(p, PublicRoute);
  }

  /** The API routes are listed exactly when Node, MongoDB and the API are all
      on; the auth files exactly when authentication is on as well. */
  lemma ApiFilesGated(p: Props)
    ensures ApiNotFound in AppFileList(p) <==> p.node && p.mongo && p.api
    ensures ApiExample in AppFileList(p) <==> p.node && p.mongo && p.api
    ensures ScopesConst in AppFileList(p) <==> p.node && p.mongo && p.api && p.jwt
    ensures UserSchema in AppFileList(p) <==> p.node && p.mongo && p.api && p.jwt
  {
    AppFilesMatchTable(p, ApiNotFound);
    AppFilesMatchTable(p, ApiExample);
    AppFilesMatchTable(p, ScopesConst);
    AppFilesMatchTable(p, UserSchema);
  }

  /** Only the Redux store and the MobX index templates are written to the
      store index. */
  lemma WritesStoreIndex(f: AppFile)
    ensures Destination(Op(f)) == StoreIndex <==> f == ReduxStore || f == MobxIndex
  {
  }

  /** The writers of the store index in any list of entries. */
  lemma {:induction false} StoreIndexWritersIn(fs: seq<AppFile>)
    ensures Writers(Map(fs, Op), StoreIndex) == multiset(fs)[ReduxStore] + multiset(fs)[MobxIndex]
  {
    if fs != [] {
      WritesStoreIndex(fs[0]);
      assert Map(fs, Op)[1..] == Map(fs[1..], Op);
      assert fs == [fs[0]] + fs[1..];
      StoreIndexWritersIn(fs[1..]);
    }
  }

  /** The store index is written once per store library switched on: once
      with Redux or MobX alone, twice on a record with both (one the prompts
      never produce, see `StoreIndexWrittenAtMostOnce`). */
  lemma StoreIndexWriters(p: Props)
    ensures Writers(AppFileOps(p), StoreIndex)
            == if p.react then (if p.redux then 1 else 0) + (if p.mobx then 1 else 0) else 0
  {
    StoreIndexWritersIn(AppFileList(p));
    StoreEntriesListed(p);
  }

  /** The Redux store is listed once with React and Redux, the MobX index
      once with React and MobX. */
  lemma StoreEntriesListed(p: Props)
    ensures multiset(AppFileList(p))[ReduxStore] == if p.react && p.redux then 1 else 0
    ensures multiset(AppFileList(p))[MobxIndex] == if p.react && p.mobx then 1 else 0
  {
    StoresInReactFiles(p);
    StoreOutsideReact(p, ReduxStore);
    StoreOutsideReact(p, MobxIndex);
  }

  /** Neither store entry is listed by the base or the server group. */
  lemma StoreOutsideReact(p: Props, f: AppFile)
    requires f == ReduxStore || f == MobxIndex
    ensures multiset(AppFileList(p))[f] == if p.react then multiset(ReactFiles(p))[f] else 0
  {
    InBaseFiles(f);
    InNodeFiles(p, f);
    CountInAppFileList(p, f);
  }

  /** How often an entry is listed, group by group. */
  lemma CountInAppFileList(p: Props, f: AppFile)
    ensures multiset(AppFileList(p))[f]
            == multiset(BaseFiles)[f]
             + (if p.react then multiset(ReactFiles(p))[f] else 0)
             + (if p.node then multiset(NodeFiles(p))[f] else 0)
  {
    var r := When(p.react, ReactFiles(p));
    var n := When(p.node, NodeFiles(p));
    assert multiset(BaseFiles + r + n) == multiset(BaseFiles) + multiset(r) + multiset(n);
  }

  /** The React branch lists the Redux store once under Redux and the MobX
      index once under MobX. */
  lemma StoresInReactFiles(p: Props)
    ensures multiset(ReactFiles(p))[ReduxStore] == if p.redux then 1 else 0
    ensures multiset(ReactFiles(p))[MobxIndex] == if p.mobx then 1 else 0
  {
    var front := [AppView] + When(p.reactRouter, [HomeView]);
    assert multiset(front)[ReduxStore] == 0 && multiset(front)[MobxIndex] == 0;
    assert multiset(ReactFiles(p)) == multiset(front) + multiset(When(p.redux, [ReduxStore])) + multiset(When(p.mobx, [MobxStore, MobxIndex]));
  }

  /** On a record the prompts can produce, the store index has at most one
      writer, so no template overwrites another. */
  lemma StoreIndexWrittenAtMostOnce(p: Props)
    requires ValidProps(p)
    ensures Writers(AppFileOps(p), StoreIndex) <= 1
  {
    StoreIndexWriters(p);
  }

  /** With React and Redux the list holds the rename of the Redux store onto
      the store index. */
  lemma ReduxStoreRename(p: Props)
    requires p.react && p.redux
    ensures Rename("src/js/stores/redux_store.js", StoreIndex) in AppFileOps(p)
  {
    AppFilesMatchTable(p, ReduxStore);
    var fs := AppFileList(p);
    var i :| 0 <= i < |fs| && fs[i] == ReduxStore;
    assert AppFileOps(p)[i] == Op(ReduxStore);
  }
}
