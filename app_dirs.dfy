/** `writing.appDirs`: the directories created in the new project, as an
    ordered list of option-guarded groups. */
module AppDirs {
  import opened Config
  import opened FileOps

  /** One entry per directory `appDirs` can list. */
  datatype AppDir =
    | Lib
    | ApiRoutes | Public | Uploads | Plugins | Schemas
    | Dist
    | Components | Actions | Constants | Reducers
    | Tests
    | Img | Fonts | Svg | Video | Audio | Data

  function DirPath(d: AppDir): string
  {
    match d
    case Lib => "src/js/lib"
    case ApiRoutes => "server/routes/api"
    case Public => "server/public"
    case Uploads => "server/uploads"
    case Plugins => "server/plugins"
    case Schemas => "server/schemas"
    case Dist => "dist"
    case Components => "src/js/components"
    case Actions => "src/js/actions"
    case Constants => "src/js/constants"
    case Reducers => "src/js/reducers"
    case Tests => "__tests__"
    case Img => "src/assets/img"
    case Fonts => "src/assets/fonts"
    case Svg => "src/assets/svg"
    case Video => "src/assets/video"
    case Audio => "src/assets/audio"
    case Data => "src/assets/data"
  }

  /** The asset directories, appended last. */
  const AssetDirs: seq<AppDir> := [Img, Fonts, Svg, Video, Audio, Data]

  /** The server branch: the API routes directory first, then the fixed
      server directories, then the schemas directory unless authentication is
      on (its schema file is copied by `appFiles` instead). */
  function ServerDirs(p: Props): seq<AppDir>
  {
    When(p.api, [ApiRoutes]) + [Public, Uploads, Plugins] + When(p.mongo && !p.jwt, [Schemas])
  }

  /** The React branch: the components directory, then the Redux ones. */
  function ReactDirs(p: Props): seq<AppDir>
  {
    [Components] + When(p.redux, [Actions, Constants, Reducers])
  }

  /** Everything `appDirs` lists before the asset directories. */
  function LeadingDirs(p: Props): seq<AppDir>
  {
    [Lib]
    + (if p.node then ServerDirs(p) else [Dist])
    + When(p.react, ReactDirs(p))
    + When(p.jest, [Tests])
  }

  /** The entries of `appDirs`'s list, in order. */
  function AppDirList(p: Props): seq<AppDir>
  {
    LeadingDirs(p) + AssetDirs
  }


  /** The list `appDirs` hands to `_createDir`. */
  function AppDirPaths(p: Props): seq<string>
  {
    Map(AppDirList(p), DirPath)
  }

  /** Reference table: the condition under which each directory is created. */
  predicate Listed(p: Props, d: AppDir)
  {
    match d
    case Lib | Img | Fonts | Svg | Video | Audio | Data => true
    case ApiRoutes => p.node && p.api
    case Public | Uploads | Plugins => p.node
    case Schemas => p.node && p.mongo && !p.jwt
    case Dist => !p.node
    case Components => p.react
    case Actions | Constants | Reducers => p.react && p.redux
    case Tests => p.jest
  }

  lemma InServerDirs(p: Props, d: AppDir)
    ensures d in ServerDirs(p) <==>
      || (d == ApiRoutes && p.api)
      || d == Public || d == Uploads || d == Plugins
      || (d == Schemas && p.mongo && !p.jwt)
  {
  }

  lemma InReactDirs(p: Props, d: AppDir)
    ensures d in ReactDirs(p) <==> d == Components || ((d == Actions || d == Constants || d == Reducers) && p.redux)
  {
  }

  lemma InAssetDirs(d: AppDir)
    ensures d in AssetDirs <==> d.Img? || d.Fonts? || d.Svg? || d.Video? || d.Audio? || d.Data?
  {
  }

  lemma InLeadingDirs(p: Props, d: AppDir)
    ensures d in LeadingDirs(p) <==>
      || d == Lib
      || (if p.node then d in ServerDirs(p) else d == Dist)
      || (p.react && d in ReactDirs(p))
      || (p.jest && d == Tests)
  {
  }

  /** The list `appDirs` builds holds exactly the directories the table
      selects. */
  lemma AppDirsMatchTable(p: Props, d: AppDir)
    ensures d in AppDirList(p) <==> Listed(p, d)
  {
    InAppDirGroups(p, d);
    InAssetDirs(d);
    LeadingDirsMatchTable(p, d);
  }

  /** Before the assets: exactly the directories the table selects that are
      not asset directories. */
  lemma LeadingDirsMatchTable(p: Props, d: AppDir)
    ensures d in LeadingDirs(p) <==> Listed(p, d) && d !in AssetDirs
  {
    InLeadingDirs(p, d);
    InAssetDirs(d);
    InServerDirs(p, d);
    InReactDirs(p, d);
  }

  /** A directory is listed exactly when it comes before the assets or is
      an asset directory. */
  lemma InAppDirGroups(p: Props, d: AppDir)
    ensures d in AppDirList(p) <==> d in LeadingDirs(p) || d in AssetDirs
  {
  }

  /** The list starts with the library directory and ends with the six asset
      directories in their fixed order. */
  lemma AppDirsShape(p: Props)
    ensures |AppDirList(p)| >= 7
    ensures AppDirList(p)[0] == Lib
    ensures AppDirList(p)[|AppDirList(p)| - 6..] == [Img, Fonts, Svg, Video, Audio, Data]
  {
  }

  /** The build-output directory exactly without Node; the server directories
      exactly with it, the API routes directory when the API is on too, the
      schemas directory when MongoDB is on and authentication is off. */
  lemma ServerDirsGated(p: Props)
    ensures Dist in AppDirList(p) <==> !p.node
    ensures Public in AppDirList(p) <==> p.node
    ensures Uploads in AppDirList(p) <==> p.node
    ensures Plugins in AppDirList(p) <==> p.node
    ensures ApiRoutes in AppDirList(p) <==> p.node && p.api
    ensures Schemas in AppDirList(p) <==> p.node && p.mongo && !p.jwt
  {
    AppDirsMatchTable(p, Dist);
    AppDirsMatchTable(p, Public);
    AppDirsMatchTable(p, Uploads);
    AppDirsMatchTable(p, Plugins);
    AppDirsMatchTable(p, ApiRoutes);
    AppDirsMatchTable(p, Schemas);
  }

  /** The components directory exactly with React, the Redux directories
      exactly with React and Redux, the tests directory exactly with Jest. */
  lemma ClientDirsGated(p: Props)
    ensures Components in AppDirList(p) <==> p.react
    ensures Actions in AppDirList(p) <==> p.react && p.redux
    ensures Constants in AppDirList(p) <==> p.react && p.redux
    ensures Reducers in AppDirList(p) <==> p.react && p.redux
    ensures Tests in AppDirList(p) <==> p.jest
  {
    AppDirsMatchTable(p, Components);
    AppDirsMatchTable(p, Actions);
    AppDirsMatchTable(p, Constants);
    AppDirsMatchTable(p, Reducers);
    AppDirsMatchTable(p, Tests);
  }

  /** Switching testing on inserts the tests directory just before the asset
      directories and changes nothing else. */
  lemma JestOnlyAddsTestsDir(p: Props)
    requires !p.jest
    ensures var ds := AppDirList(p);
            AppDirList(p.(jest := true)) == ds[..|ds| - |AssetDirs|] + [Tests] + AssetDirs
  {
    var front := [Lib] + (if p.node then ServerDirs(p) else [Dist]) + When(p.react, ReactDirs(p));
    assert LeadingDirs(p) == front;
    assert LeadingDirs(p.(jest := true)) == front + [Tests];
    assert AppDirList(p)[..|AppDirList(p)| - |AssetDirs|] == front;
  }

  /** A client-only record with React, React-Router and Jest but no server:
      the build directory comes right after the library directory,
      before the components and tests directories. */
  lemma ClientOnlyExample(p: Props)
    requires p.react && p.reactRouter && !p.redux && !p.mobx && !p.node && p.jest
    ensures AppDirList(p) == [Lib, Dist, Components, Tests, Img, Fonts, Svg, Video, Audio, Data]
  {
  }
}
