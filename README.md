# Devine boilerplate generator: option resolver

A model of the logic inside the Yeoman generator `generators/app/index.js`.
The generator asks a fixed list of yes/no questions and records the answers
in an option record (`props`). From that record it builds three ordered lists:

- the application files to copy (`writing.appFiles`);
- the directories to create (`writing.appDirs`);
- the tooling files to copy (`writing.settings`).

Every entry of the two file lists is a plain template path or a `{from, to}`
rename; the directory list holds plain paths.

Modules:

- `Naming`: `_parseName`, as JavaScript's `split(' ')` followed by
  `join('-')`. It is proved equal to replacing each space with a hyphen.
- `Config` covers the option record, the question list and the prompt fold:
  - the record's defaults from `initializing`;
  - the question list with its `when` guards, in the order `prompting`
    asks them;
  - the prompt engine as a forward-only fold, where each guard sees only
    the answers collected so far;
  - the `Object.assign` merge of the answers into the record;
  - the dependencies the question order guarantees between options.
- `FileOps`: the file-operation datatype and `_copyFile`'s choice of
  template and destination.
- `AppFiles`, `AppDirs`, `Settings`: one list function per writer, built
  from option-guarded groups in the code's order. Each has a reference
  table saying when every entry appears, and lemmas about membership,
  order and the renames.
- `Generator`: the generator object as a class. It holds:
  - `props`, which `initializing` and `prompting` update;
  - the copies and directories the `forEach` loops issue.

  Its methods build each list by reassigning a local sequence inside the
  code's `if` blocks. Each method is proved equal to its writer's list
  function.

Points of the code's behaviour worth knowing:

- `dist` is created right after `src/js/lib`, before `src/js/components`
  and `__tests__`.
- `server/schemas` needs Node and MongoDB with authentication off. The API
  option plays no part.
- Only the suggested project name goes through `_parseName`. A name the
  user types is kept as typed; an empty line keeps the suggestion.
- No writer rejects a record the questions cannot produce. With React,
  Redux and MobX all on, `appFiles` would copy two templates to
  `src/js/stores/index.js`. `AppFiles.StoreIndexWriters` counts them.

The MobX question's guard reads `redux` before Redux has been asked. While
that guard is evaluated, `redux` is absent and so falsy. MobX is therefore
gated on React alone, and Redux on React without MobX.

## Model

| member | source | states |
|---|---|---|
| Naming.Split | generators/app/index.js:96 | `split` on one character returns at least one piece, and no piece contains the separator |
| Naming.Replace | generators/app/index.js:95-97 | reference definition: same length, and each position holds the replacement exactly where the input held the replaced character |
| Naming.ParseName | generators/app/index.js:95-97 | the name keeps its length, every space becomes `-` and every other character stays, and no space is left |
| Naming.SplitJoinIsReplace | generators/app/index.js:96 | splitting on one character and joining with another equals replacing the first character by the second |
| Naming.SplitJoinRoundTrip | generators/app/index.js:96 | joining the pieces back with the same separator gives the input |
| Naming.JoinPrepend | generators/app/index.js:96 | gluing text onto the first piece before `join` puts that text at the front of the result |
| Config.Initial | generators/app/index.js:61-85 | the `initializing` record: every option off, yarn assumed present, no name, version and secret as supplied |
| Config.Assign | generators/app/index.js:177 | `Object.assign`: the name becomes the answered name; yarn, the Node version and the secret are untouched |
| Config.AssignOverwrites | generators/app/index.js:177 | after the merge an option holds its answer if it has one, and its earlier value otherwise |
| Config.Collect | generators/app/index.js:104-176 | the name is the `_parseName` of Yeoman's `appname` when nothing (or an empty line) is typed, otherwise the typed text, and it is empty only for an empty `appname`; the collected options meet every dependency the question order sets up; an option is on only when the user answered yes to its question |
| Config.AskSplit | generators/app/index.js:104-176 | folding over a list is folding over its prefix and then over the rest |
| Config.AskOnlyTouchesKeys | generators/app/index.js:104-176 | the fold adds or changes only the options its questions are about |
| Config.AnsweredIffAsked | generators/app/index.js:120-176 | a question has an answer exactly when its guard held on the earlier answers, and that answer is the reply or the default |
| Config.Position | generators/app/index.js:110-176 | each option's question sits at a fixed place in the list, and no other question asks about that option |
| Config.PositionOfQuestion | generators/app/index.js:110-176 | the position of the i-th question's option is i |
| Config.QuestionsDistinct | generators/app/index.js:110-176 | no option is asked twice |
| Config.DependentGuards | generators/app/index.js:120-166 | the guards of the React-Router, MobX, Redux, MongoDB, API, JWT and Heroku questions |
| Config.StepKeepsDependency | generators/app/index.js:120-166 | a dependency of one option on another survives a question when the other option is asked first and guards the question |
| Config.StepKeepsExclusion | generators/app/index.js:126-137 | "not both MobX and Redux" survives a question when each of the two is asked only while the other is unset |
| Config.StepKeepsConsistent | generators/app/index.js:110-176 | each question keeps the answers consistent and records only options asked so far |
| Config.PrefixConsistent | generators/app/index.js:104-176 | after any prefix of the questions the answers are consistent |
| Config.CollectedConsistent | generators/app/index.js:104-176 | the final answers never have both MobX and Redux on, and React-Router, MobX, Redux ⇒ React; JWT ⇒ API ⇒ MongoDB ⇒ Node; Heroku ⇒ Node |
| Config.QuestionsDefaultNo | generators/app/index.js:110-176 | every yes/no question defaults to no |
| Config.AskOnlyConfirmed | generators/app/index.js:110-176 | when every question defaults to no, the fold switches an option on only if the user replied yes to it |
| Config.CollectedConfirmed | generators/app/index.js:110-176 | over the real question list, every option that ends up on was answered yes |
| Config.SameAnswerLater | generators/app/index.js:104-176 | an option asked among the first k questions already has its final answer after them |
| Config.StoreQuestionsGating | generators/app/index.js:126-137 | MobX is asked exactly when React is on; Redux exactly when React is on and MobX is off |
| Config.AssignOntoDefaults | generators/app/index.js:177 | merged onto the all-off record, an option is on exactly when it was answered yes |
| Config.PromptedPropsValid | generators/app/index.js:59-178 | after `initializing` and `prompting` the record meets every option dependency, and a skipped option stays off |
| Config.ValidFromConsistent | generators/app/index.js:177 | a record whose options mirror consistent answers meets the same dependencies |
| FileOps.CopyFile | generators/app/index.js:33-38 | a plain path is both template and destination; a `{from, to}` record reads `from` and writes `to` |
| FileOps.WritersAppend | generators/app/index.js:200-326 | writers of a path in two concatenated lists add up |
| AppFiles.AppFilesMatchTable | generators/app/index.js:184-330 | an entry is listed exactly when the reference table's condition holds |
| AppFiles.InBaseFiles | generators/app/index.js:186-204 | the base group is the three stylesheets, the HTML entry and the script entry |
| AppFiles.InReactFiles | generators/app/index.js:245-279 | the React group holds the root view, plus the routed view, the Redux store and the MobX files under their flags |
| AppFiles.InNodeFiles | generators/app/index.js:281-326 | the Node group holds the server entry, the API and auth files under their flags, and one static route |
| AppFiles.InAppFileGroups | generators/app/index.js:200-326 | an entry is listed exactly when it is in the base group, the enabled React group or the enabled Node group |
| AppFiles.AppFilesStartWithBase | generators/app/index.js:186-204 | the list starts with `reset.css`, `style.css`, `vars.css`, `index.html`, `script.js` in that order |
| AppFiles.ReactFilesGated | generators/app/index.js:245-279 | no view or store file without React; with it each appears exactly under its own flag |
| AppFiles.StaticRouteChoice | generators/app/index.js:281-326 | with Node exactly one static route is listed, chosen by React-Router; without Node neither, nor the server entry |
| AppFiles.ApiFilesGated | generators/app/index.js:288-306 | the API routes appear exactly with Node, MongoDB and API; the auth files exactly with JWT as well |
| AppFiles.WritesStoreIndex | generators/app/index.js:215-221 | only the Redux store and the MobX index are written to `src/js/stores/index.js` |
| AppFiles.StoreIndexWritersIn | generators/app/index.js:215-221 | in any list, the writers of the store index are the Redux store and MobX index entries |
| AppFiles.StoreIndexWriters | generators/app/index.js:245-279 | the store index has one writer for Redux and one for MobX, both only under React |
| AppFiles.StoreEntriesListed | generators/app/index.js:245-279 | the Redux store is listed once with React and Redux, the MobX index once with React and MobX, otherwise never |
| AppFiles.StoreOutsideReact | generators/app/index.js:200-326 | neither store entry comes from the base or Node group |
| AppFiles.CountInAppFileList | generators/app/index.js:200-326 | how often an entry is listed is the sum of its counts in the enabled groups |
| AppFiles.StoresInReactFiles | generators/app/index.js:245-279 | the React group lists the Redux store once under Redux and the MobX index once under MobX |
| AppFiles.StoreIndexWrittenAtMostOnce | generators/app/index.js:245-279 | on any record the questions can produce, no two templates are copied to the store index |
| AppFiles.ReduxStoreRename | generators/app/index.js:214-268 | with React and Redux the list holds the rename of `redux_store.js` onto `src/js/stores/index.js` |
| AppDirs.InServerDirs | generators/app/index.js:370-395 | the server group: the API routes under API, the three fixed directories, the schemas with MongoDB and no JWT |
| AppDirs.InReactDirs | generators/app/index.js:405-421 | the React group: the components, plus the three Redux directories under Redux |
| AppDirs.InAssetDirs | generators/app/index.js:432-444 | the asset group is the six `src/assets` directories |
| AppDirs.InLeadingDirs | generators/app/index.js:334-430 | what precedes the assets: the library, the server group or `dist`, the enabled React group, the tests under Jest |
| AppDirs.InAppDirGroups | generators/app/index.js:334-444 | a directory is listed exactly when it is one of those before the assets or an asset directory |
| AppDirs.LeadingDirsMatchTable | generators/app/index.js:334-430 | before the assets exactly the table's directories that are not asset directories are listed |
| AppDirs.AppDirsMatchTable | generators/app/index.js:332-448 | a directory is listed exactly when the reference table's condition holds |
| AppDirs.AppDirsShape | generators/app/index.js:334-444 | the list starts with `src/js/lib` and ends with the six asset directories in order |
| AppDirs.ServerDirsGated | generators/app/index.js:370-403 | `dist` exactly without Node; public, uploads, plugins exactly with Node; API routes with Node and API; schemas with Node, MongoDB and no JWT |
| AppDirs.ClientDirsGated | generators/app/index.js:405-430 | components exactly with React; actions, constants, reducers exactly with React and Redux; `__tests__` exactly with Jest |
| AppDirs.JestOnlyAddsTestsDir | generators/app/index.js:423-430 | turning Jest on inserts `__tests__` just before the assets and changes nothing else |
| AppDirs.ClientOnlyExample | generators/app/index.js:334-444 | React with React-Router and Jest, no server: `lib`, `dist`, `components`, `__tests__`, then the assets |
| Settings.InAlwaysSettings | generators/app/index.js:486-495 | the fixed group holds every tooling file except Flow's, Heroku's and the two Node files |
| Settings.InSettingsGroups | generators/app/index.js:486-535 | a file is listed exactly when it is fixed, or Flow's with Flow on, or in the Node group with Node on |
| Settings.SettingsMatchTable | generators/app/index.js:450-539 | a tooling file is listed exactly when the reference table's condition holds |
| Settings.SettingsStartWithAlways | generators/app/index.js:452-495 | eslint, git, babel, postcss, stylelint, webpack, npm, editor open the list in order, with `_gitignore → .gitignore` and `_package.json → package.json` |
| Settings.OptionalSettingsGated | generators/app/index.js:497-535 | `.flowconfig` exactly with Flow; `.slugignore` exactly with Node and Heroku; `.env` and `nodemon.json` exactly with Node |
| Settings.NodeSettingsLast | generators/app/index.js:510-535 | with Node the list ends with `.slugignore` (under Heroku), then `.env`, then `nodemon.json` |
| Settings.FlowOnlyAddsConfig | generators/app/index.js:497-508 | turning Flow on inserts `.flowconfig` right after the fixed files and changes nothing else |
| Generator.Generator.constructor | generators/app/index.js:17 | a fresh generator for Yeoman's `appname`, with nothing copied or created yet |
| Generator.Generator.Initializing | generators/app/index.js:59-93 | `props` becomes the all-off record, with yarn off exactly when the probe fails |
| Generator.Generator.Prompting | generators/app/index.js:104-178 | `props` becomes the merge of the collected answers; after `initializing` it meets every option dependency, with each option on exactly when confirmed |
| Generator.Generator.AppFileList | generators/app/index.js:184-326 | the list the `if` blocks build is the `appFiles` list function of `props` |
| Generator.Generator.AddReactFiles | generators/app/index.js:245-279 | the React block appends exactly the React group |
| Generator.Generator.AddNodeFiles | generators/app/index.js:281-326 | the Node block appends exactly the Node group |
| Generator.Generator.AppDirList | generators/app/index.js:332-444 | the list the `if` blocks build is the `appDirs` list function of `props` |
| Generator.Generator.AddServerDirs | generators/app/index.js:370-395 | the Node block appends exactly the server group |
| Generator.Generator.AddReactDirs | generators/app/index.js:405-421 | the React block appends exactly the React group |
| Generator.Generator.SettingsList | generators/app/index.js:450-535 | the list the `if` blocks build is the `settings` list function of `props` |
| Generator.Generator.AddNodeSettings | generators/app/index.js:510-535 | the Node block appends exactly the Node group |
| Generator.Generator.CopyEach | generators/app/index.js:328 | the `forEach` issues one `_copyFile` per operation, in order |
| Generator.Generator.CreateEach | generators/app/index.js:446 | the `forEach` requests one directory per path, in order |
| Generator.Generator.WriteAppFiles | generators/app/index.js:184-330 | `appFiles` copies exactly its list, in order |
| Generator.Generator.WriteAppDirs | generators/app/index.js:332-448 | `appDirs` creates exactly its list, in order |
| Generator.Generator.WriteSettings | generators/app/index.js:450-539 | `settings` copies exactly its list, in order |
| Generator.Generator.Configure | generators/app/index.js:59-178 | after `initializing` and `prompting` the record is exactly the collected answers merged onto the defaults (with yarn from the probe), and it meets every option dependency |
| Generator.Generator.Write | generators/app/index.js:182-539 | the copies gain the `appFiles` list and then the `settings` list, and the created directories gain the `appDirs` list, each in list order; copies and directories are kept in two separate logs |
| Generator.Generator.Generate | generators/app/index.js:59-539 | after `initializing`, `prompting` and `writing` the record is exactly the collected answers merged onto the defaults and is valid; the copies are the application files and then the tooling files of that record; the directories are its `appDirs` list |

## Left out

- Two values come from the environment and are parameters here: the Node
  version, which the code reads from `process.version`, and the secret,
  which it builds from `Math.random`.
- The `yarn --version` probe is a process call. Its outcome is the
  `yarnDetected` parameter.
- The interactive prompt engine is not modelled. The user's replies are
  input: a typed name or none, and a yes/no reply per option. An empty
  typed name is taken to mean the suggested default, as the prompt engine
  does for an `input` question with a `default`.
- How Yeoman derives `appname` (from the package name or the folder name)
  is not modelled: `appname` is a constructor parameter.
- `updateNotifier` is not modelled: it is network and terminal output.
- `_clearConsole` is not modelled: it is terminal escape output.
- The template rendering is not modelled: `copyTpl`, `templatePath`,
  `destinationPath` and the EJS templates. A copy is recorded as its
  template and destination.
- `mkdirp` and its error logging are not modelled. A directory creation is
  recorded as its path.
- `install`, `_spawn` and `exec` are process spawning and are not modelled.
- Naming.Split: models `split` with a one-character separator only, the
  only form `_parseName` uses.
- AppFiles.AppFilesStartWithBase, Settings.SettingsStartWithAlways and
  AppDirs.AppDirsShape state order at the level of list entries. Each
  entry's path or rename is fixed by `Op` / `DirPath`.
