/** The generator object: its `props` record, filled by `initializing` and
    `prompting`, and the three `writing` steps, which list what to copy or
    create and hand each entry to `_copyFile` or `_createDir`. */
module Generator {
  import opened Config
  import opened FileOps
  import AppFiles
  import AppDirs
  import Settings

  /** Appending groups one after another appends their concatenation. */
  lemma Regroup3<T>(s: seq<T>, a: seq<T>, b: seq<T>, c: seq<T>)
    ensures s + a + b + c == s + (a + b + c)
  {
  }

  lemma Regroup4<T>(s: seq<T>, a: seq<T>, b: seq<T>, c: seq<T>, d: seq<T>)
    ensures s + a + b + c + d == s + (a + b + c + d)
  {
  }

  class Generator {
    /** Yeoman's `appname`, from which the suggested project name is made. */
    const appname: string
    /** The option record the templates are rendered with. */
    var props: Props
    /** The template copies issued through `_copyFile`, in order. */
    var copies: seq<Copy>
    /** The directories requested through `_createDir`, in order. */
    var created: seq<string>

    /** A generator before its first step. The record has no value before
        `initializing`; the all-off record here is a placeholder that
        `initializing` replaces. */
    constructor(appname: string)
      ensures this.appname == appname && copies == [] && created == []
    {
      this.appname := appname;
      props := Initial("", "");
      copies := [];
      created := [];
    }

    /** `initializing`: every option off, Yarn assumed present, then turned
        off when the `yarn --version` probe fails. The Node version and the
        secret are what the process reports and what the random source
        yields. */
    method Initializing(yarnDetected: bool, nodeVersion: string, secret: string)
      modifies this`props
      ensures props == Initial(nodeVersion, secret).(yarn := yarnDetected)
    {
      props := Initial(nodeVersion, secret);
      if !yarnDetected {
        props := props.(yarn := false);
      }
    }

    /** `prompting`: the answers are merged over the record. Run after
        `initializing`, the record then honours every option dependency,
        and each option is on exactly when it was asked and confirmed. */
    method Prompting(replies: Replies)
      modifies this`props
      ensures props == Assign(old(props), Collect(appname, replies))
      ensures AllOff(old(props)) ==>
                && ValidProps(props)
                && forall f :: Get(props, f) == Truthy(Collect(appname, replies).flags, f)
    {
      var answers := Collect(appname, replies);
      if AllOff(props) {
        PromptedPropsValid(props, appname, replies);
      }
      props := Assign(props, answers);
    }

    /** The list `appFiles` builds, group by group as the record selects. */
    method AppFileList() returns (files: seq<FileOp>)
      ensures files == AppFiles.AppFileOps(props)
    {
      var list := AppFiles.BaseFiles;
      if props.react {
        list := AddReactFiles(list);
      }
      if props.node {
        list := AddNodeFiles(list);
      }
      files := Map(list, AppFiles.Op);
    }

    /** The `react` block of `appFiles`. */
    method AddReactFiles(list: seq<AppFiles.AppFile>) returns (out: seq<AppFiles.AppFile>)
      ensures out == list + AppFiles.ReactFiles(props)
    {
      out := list + [AppFiles.AppView];
      ghost var s1 := out;
      if props.reactRouter {
        out := out + [AppFiles.HomeView];
      }
      assert out == s1 + When(props.reactRouter, [AppFiles.HomeView]);
      ghost var s2 := out;
      if props.redux {
        out := out + [AppFiles.ReduxStore];
      }
      assert out == s2 + When(props.redux, [AppFiles.ReduxStore]);
      ghost var s3 := out;
      if props.mobx {
        out := out + [AppFiles.MobxStore, AppFiles.MobxIndex];
      }
      assert out == s3 + When(props.mobx, [AppFiles.MobxStore, AppFiles.MobxIndex]);
      Regroup4(list, [AppFiles.AppView], When(props.reactRouter, [AppFiles.HomeView]),
        When(props.redux, [AppFiles.ReduxStore]), When(props.mobx, [AppFiles.MobxStore, AppFiles.MobxIndex]));
    }

    /** The `node` block of `appFiles`. */
    method AddNodeFiles(list: seq<AppFiles.AppFile>) returns (out: seq<AppFiles.AppFile>)
      ensures out == list + AppFiles.NodeFiles(props)
    {
      out := list + [AppFiles.ServerEntry];
      ghost var s1 := out;
      if props.mongo {
        if props.api {
          out := out + [AppFiles.ApiNotFound, AppFiles.ApiExample];
          ghost var s2 := out;
          if props.jwt {
            out := out + [AppFiles.ScopesConst, AppFiles.UserSchema];
          }
          assert out == s2 + When(props.jwt, [AppFiles.ScopesConst, AppFiles.UserSchema]);
        }
      }
      ghost var api := When(props.mongo && props.api,
        [AppFiles.ApiNotFound, AppFiles.ApiExample] + When(props.jwt, [AppFiles.ScopesConst, AppFiles.UserSchema]));
      assert out == s1 + api;
      if props.reactRouter {
        out := out + [AppFiles.SpaRoute];
      } else {
        out := out + [AppFiles.PublicRoute];
      }
      Regroup3(list, [AppFiles.ServerEntry], api, if props.reactRouter then [AppFiles.SpaRoute] else [AppFiles.PublicRoute]);
    }

    /** The list `appDirs` builds. */
    method AppDirList() returns (dirs: seq<string>)
      ensures dirs == AppDirs.AppDirPaths(props)
    {
      var list := [AppDirs.Lib];
      if props.node {
        list := AddServerDirs(list);
      } else {
        list := list + [AppDirs.Dist];
      }
      if props.react {
        list := AddReactDirs(list);
      }
      if props.jest {
        list := list + [AppDirs.Tests];
      }
      assert list == AppDirs.LeadingDirs(props);
      list := list + AppDirs.AssetDirs;
      dirs := Map(list, AppDirs.DirPath);
    }

    /** The `node` block of `appDirs`. */
    method AddServerDirs(list: seq<AppDirs.AppDir>) returns (out: seq<AppDirs.AppDir>)
      ensures out == list + AppDirs.ServerDirs(props)
    {
      out := list;
      if props.api {
        out := out + [AppDirs.ApiRoutes];
      }
      assert out == list + When(props.api, [AppDirs.ApiRoutes]);
      out := out + [AppDirs.Public, AppDirs.Uploads, AppDirs.Plugins];
      ghost var s1 := out;
      if props.mongo && !props.jwt {
        out := out + [AppDirs.Schemas];
      }
      assert out == s1 + When(props.mongo && !props.jwt, [AppDirs.Schemas]);
      Regroup3(list, When(props.api, [AppDirs.ApiRoutes]), [AppDirs.Public, AppDirs.Uploads, AppDirs.Plugins],
        When(props.mongo && !props.jwt, [AppDirs.Schemas]));
    }

    /** The `react` block of `appDirs`. */
    method AddReactDirs(list: seq<AppDirs.AppDir>) returns (out: seq<AppDirs.AppDir>)
      ensures out == list + AppDirs.ReactDirs(props)
    {
      out := list + [AppDirs.Components];
      ghost var s1 := out;
      if props.redux {
        out := out + [AppDirs.Actions, AppDirs.Constants, AppDirs.Reducers];
      }
      assert out == s1 + When(props.redux, [AppDirs.Actions, AppDirs.Constants, AppDirs.Reducers]);
    }

    /** The list `settings` builds. */
    method SettingsList() returns (files: seq<FileOp>)
      ensures files == Settings.SettingsOps(props)
    {
      var list := Settings.AlwaysSettings;
      if props.flow {
        list := list + [Settings.FlowConfig];
      }
      if props.node {
        list := AddNodeSettings(list);
      }
      files := Map(list, Settings.Op);
    }

    /** The `node` block of `settings`. */
    method AddNodeSettings(list: seq<Settings.Setting>) returns (out: seq<Settings.Setting>)
      ensures out == list + Settings.NodeSettings(props)
    {
      out := list;
      if props.heroku {
        out := out + [Settings.SlugIgnore];
      }
      assert out == list + When(props.heroku, [Settings.SlugIgnore]);
      out := out + [Settings.EnvFile, Settings.NodemonConfig];
    }

    /** `files.forEach(f => this._copyFile(f))`. */
    method CopyEach(files: seq<FileOp>)
      modifies this`copies
      ensures copies == old(copies) + Map(files, CopyFile)
    {
      var i := 0;
      while i < |files|
        invariant 0 <= i <= |files|
        invariant copies == old(copies) + Map(files[..i], CopyFile)
      {
        assert Map(files[..i + 1], CopyFile) == Map(files[..i], CopyFile) + [CopyFile(files[i])];
        copies := copies + [CopyFile(files[i])];
        i := i + 1;
      }
      assert files[..i] == files;
    }

    /** `dirs.forEach(d => this._createDir(d))`. */
    method CreateEach(dirs: seq<string>)
      modifies this`created
      ensures created == old(created) + dirs
    {
      var i := 0;
      while i < |dirs|
        invariant 0 <= i <= |dirs|
        invariant created == old(created) + dirs[..i]
      {
        assert dirs[..i + 1] == dirs[..i] + [dirs[i]];
        created := created + [dirs[i]];
        i := i + 1;
      }
      assert dirs[..i] == dirs;
    }

    /** `writing.appFiles`. */
    method WriteAppFiles()
      modifies this`copies
      ensures copies == old(copies) + Map(AppFiles.AppFileOps(props), CopyFile)
    {
      var files := AppFileList();
      CopyEach(files);
    }

    /** `writing.appDirs`. */
    method WriteAppDirs()
      modifies this`created
      ensures created == old(created) + AppDirs.AppDirPaths(props)
    {
      var dirs := AppDirList();
      CreateEach(dirs);
    }

    /** `writing.settings`. */
    method WriteSettings()
      modifies this`copies
      ensures copies == old(copies) + Map(Settings.SettingsOps(props), CopyFile)
    {
      var files := SettingsList();
      CopyEach(files);
    }

    /** `initializing` then `prompting`: the record is the collected answers
        merged onto the defaults, it meets every option dependency, and yarn
        reflects the probe. */
    method Configure(yarnDetected: bool, nodeVersion: string, secret: string, replies: Replies)
      modifies this`props
      ensures props == Assign(Initial(nodeVersion, secret).(yarn := yarnDetected), Collect(appname, replies))
      ensures ValidProps(props) && props.yarn == yarnDetected
    {
      Initializing(yarnDetected, nodeVersion, secret);
      Prompting(replies);
    }

    /** The three `writing` steps: the application files are copied, then
        the directories are created, then the tooling files are copied. */
    method Write()
      modifies this`copies, this`created
      ensures copies == old(copies) + Map(AppFiles.AppFileOps(props), CopyFile) + Map(Settings.SettingsOps(props), CopyFile)
      ensures created == old(created) + AppDirs.AppDirPaths(props)
    {
      WriteAppFiles();
      WriteAppDirs();
      WriteSettings();
    }

    /** The run up to the end of `writing`. */
    method Generate(yarnDetected: bool, nodeVersion: string, secret: string, replies: Replies)
      modifies this`props, this`copies, this`created
      ensures props == Assign(Initial(nodeVersion, secret).(yarn := yarnDetected), Collect(appname, replies))
      ensures ValidProps(props) && props.yarn == yarnDetected
      ensures copies == old(copies) + Map(AppFiles.AppFileOps(props), CopyFile) + Map(Settings.SettingsOps(props), CopyFile)
      ensures created == old(created) + AppDirs.AppDirPaths(props)
    {
      Configure(yarnDetected, nodeVersion, secret, replies);
      Write();
    }
  }
}
