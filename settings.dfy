/** `writing.settings`: the tooling files copied into the new project, as an
    ordered list of option-guarded groups. */
module Settings {
  import opened Config
  import opened FileOps

  /** One entry per tooling file `settings` can list. */
  datatype Setting =
    | EslintIgnore | Eslintrc
    | Readme | GitIgnore
    | Babelrc | PostcssConfig | Stylelintrc | WebpackConfig | PackageJson | EditorConfig
    | FlowConfig | SlugIgnore | EnvFile | NodemonConfig

  /** The entry as the source lists it. The git ignore file and the package
      manifest are stored under names that keep them from being ignored or
      packaged, and renamed when copied. */
  function Op(s: Setting): FileOp
  {
    match s
    case EslintIgnore => Plain(".eslintignore")
    case Eslintrc => Plain(".eslintrc")
    case Readme => Plain("README.md")
    case GitIgnore => Rename("_gitignore", ".gitignore")
    case Babelrc => Plain(".babelrc")
    case PostcssConfig => Plain("postcss.config.js")
    case Stylelintrc => Plain(".stylelintrc")
    case WebpackConfig => Plain("webpack.config.js")
    case PackageJson => Rename("_package.json", "package.json")
    case EditorConfig => Plain(".editorconfig")
    case FlowConfig => Plain(".flowconfig")
    case SlugIgnore => Plain(".slugignore")
    case EnvFile => Plain(".env")
    case NodemonConfig => Plain("nodemon.json")
  }

  /** The files every project gets: eslint, git, babel, postcss, stylelint,
      webpack, npm, then editor. */
  const AlwaysSettings: seq<Setting> := [
    EslintIgnore, Eslintrc, Readme, GitIgnore, Babelrc, PostcssConfig, Stylelintrc, WebpackConfig, PackageJson, EditorConfig
  ]

  /** The Node group: the Heroku ignore file first when Heroku is on, then
      the environment and nodemon files. */
  function NodeSettings(p: Props): seq<Setting>
  {
    When(p.heroku, [SlugIgnore]) + [EnvFile, NodemonConfig]
  }

  /** The entries of `settings`'s list, in order. */
  function SettingsList(p: Props): seq<Setting>
  {
    AlwaysSettings + When(p.flow, [FlowConfig]) + When(p.node, NodeSettings(p))
  }

  /** The list `settings` hands to `_copyFile`. */
  function SettingsOps(p: Props): seq<FileOp>
  {
    Map(SettingsList(p), Op)
  }

  /** Reference table: the condition under which each tooling file is copied. */
  predicate Listed(p: Props, s: Setting)
  {
    match s
    case FlowConfig => p.flow
    case SlugIgnore => p.node && p.heroku
    case EnvFile | NodemonConfig => p.node
    case _ => true
  }

  lemma InAlwaysSettings(s: Setting)
    ensures s in AlwaysSettings <==> !(s.FlowConfig? || s.SlugIgnore? || s.EnvFile? || s.NodemonConfig?)
  {
  }

  lemma InSettingsGroups(p: Props, s: Setting)
    ensures s in SettingsList(p) <==>
      || s in AlwaysSettings
      || (p.flow && s == FlowConfig)
      || (p.node && ((p.heroku && s == SlugIgnore) || s == EnvFile || s == NodemonConfig))
  {
  }

  /** The list `settings` builds holds exactly the files the table selects. */
  lemma SettingsMatchTable(p: Props, s: Setting)
    ensures s in SettingsList(p) <==> Listed(p, s)
  {
    InAlwaysSettings(s);
    InSettingsGroups(p, s);
  }

  /** The fixed tooling files open the list, in their order, the git ignore
      file and the package manifest among them as renames. */
  lemma SettingsStartWithAlways(p: Props)
    ensures |SettingsList(p)| >= 10
    ensures SettingsList(p)[..10] == [
      EslintIgnore, Eslintrc, Readme, GitIgnore, Babelrc, PostcssConfig, Stylelintrc, WebpackConfig, PackageJson, EditorConfig]
    ensures SettingsOps(p)[3] == Rename("_gitignore", ".gitignore")
    ensures SettingsOps(p)[8] == Rename("_package.json", "package.json")
  {
  }

  /** The optional files appear exactly under their options. */
  lemma OptionalSettingsGated(p: Props)
    ensures FlowConfig in SettingsList(p) <==> p.flow
    ensures SlugIgnore in SettingsList(p) <==> p.node && p.heroku
    ensures EnvFile in SettingsList(p) <==> p.node
    ensures NodemonConfig in SettingsList(p) <==> p.node
  {
    SettingsMatchTable(p, FlowConfig);
    SettingsMatchTable(p, SlugIgnore);
    SettingsMatchTable(p, EnvFile);
    SettingsMatchTable(p, NodemonConfig);
  }

  /** With Node the list ends with the Node group: the Heroku ignore file,
      when present, before the environment and nodemon files. */
  lemma NodeSettingsLast(p: Props)
    requires p.node
    ensures var ss := SettingsList(p);
            && (p.heroku ==> |ss| >= 3 && ss[|ss| - 3..] == [SlugIgnore, EnvFile, NodemonConfig])
            && (!p.heroku ==> |ss| >= 2 && ss[|ss| - 2..] == [EnvFile, NodemonConfig])
  {
    var front := AlwaysSettings + When(p.flow, [FlowConfig]);
    assert SettingsList(p) == front + NodeSettings(p);
  }

  /** Switching Flow on inserts its config right after the fixed files and
      changes nothing else. */
  lemma FlowOnlyAddsConfig(p: Props)
    requires !p.flow
    ensures SettingsList(p.(flow := true))
            == AlwaysSettings + [FlowConfig] + SettingsList(p)[|AlwaysSettings|..]
  {
    var rest := When(p.node, NodeSettings(p));
    assert SettingsList(p) == AlwaysSettings + rest;
    assert SettingsList(p)[|AlwaysSettings|..] == rest;
  }
}
