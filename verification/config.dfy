/** The configuration of the notification server (package `config`): the
    record, its built-in defaults, the validity rule, the decision chain that
    loads a configuration file, and the choice of the default file path.

    The file system, the YAML decoder and the process environment are not
    modelled; what they report enters as plain values. */
module Configuration {
  import opened Wrappers
  import FilePath

  /** Presentation hints for one severity level. */
  datatype Level = Level(urgency: string, icon: string)

  /** Platform-specific notification commands. */
  datatype Commands = Commands(linux: string, macOS: string, windows: string)

  /** Message template; stored but never rendered. */
  datatype Template = Template(default: string)

  /** The `notification` section of the configuration file. */
  datatype NotificationConfig = NotificationConfig(
    dryRun: bool,
    verbose: bool,
    mode: string,
    commands: Commands,
    template: Template,
    levels: map<string, Level>)

  datatype Config = Config(notification: NotificationConfig)

  const DefaultTemplate: string := "{{.Title}}: {{.Message}} [{{.Level}}]"

  /** The configuration used when no file is present, and the base a file
      is decoded onto. */
  function DefaultConfig(): (c: Config)
    ensures !c.notification.dryRun && !c.notification.verbose
    ensures c.notification.mode == "library"
    ensures c.notification.commands == Commands("", "", "")
    ensures c.notification.template.default != ""
    ensures c.notification.levels.Keys == {"info", "warning", "error", "success"}
  {
    Config(NotificationConfig(
      dryRun := false,
      verbose := false,
      mode := "library",
      commands := Commands("", "", ""),
      template := Template(DefaultTemplate),
      levels := map[
        "info" := Level("normal", ""),
        "warning" := Level("normal", "dialog-warning"),
        "error" := Level("critical", "dialog-error"),
        "success" := Level("low", "dialog-information")]))
  }

  /** The delivery modes the configuration accepts. */
  predicate KnownMode(mode: string) {
    mode == "library" || mode == "command"
  }

  /** At least one platform command is set. */
  predicate HasCommand(c: Commands) {
    c.linux != "" || c.macOS != "" || c.windows != ""
  }

  /** `Config.Validate`: `None` when the configuration is acceptable,
      otherwise the error text. */
  function Validate(c: Config): (err: Option<string>)
    ensures err.None? <==>
              KnownMode(c.notification.mode)
              && (c.notification.mode == "command" ==> HasCommand(c.notification.commands))
    ensures !KnownMode(c.notification.mode) ==>
              err == Some("invalid mode: " + c.notification.mode + " (must be 'library' or 'command')")
    ensures c.notification.mode == "command" && !HasCommand(c.notification.commands) ==>
              err == Some("command mode requires at least one platform command to be defined")
  {
    var n := c.notification;
    if n.mode != "library" && n.mode != "command" then
      Some("invalid mode: " + n.mode + " (must be 'library' or 'command')")
    else if n.mode == "command" && n.commands.linux == "" && n.commands.macOS == "" && n.commands.windows == "" then
      Some("command mode requires at least one platform command to be defined")
    else
      None
  }

  /** The built-in configuration passes validation. */
  lemma DefaultConfigIsValid()
    ensures Validate(DefaultConfig()).None?
  {
  }

  /** What decoding a configuration file onto the defaults sets: `Some` for
      each key present in the file. `levels` is the whole map the decoder
      leaves behind when the file has a `levels` key; how it merges entries
      is the decoder's business and is not described here. */
  datatype Overlay = Overlay(
    dryRun: Option<bool>,
    verbose: Option<bool>,
    mode: Option<string>,
    linux: Option<string>,
    macOS: Option<string>,
    windows: Option<string>,
    templateDefault: Option<string>,
    levels: Option<map<string, Level>>)

  /** A file with no keys at all. */
  const EmptyOverlay: Overlay := Overlay(None, None, None, None, None, None, None, None)

  /** The configuration after decoding `o` onto `base`. */
  function ApplyOverlay(base: Config, o: Overlay): Config {
    var n := base.notification;
    Config(NotificationConfig(
      dryRun := o.dryRun.GetOr(n.dryRun),
      verbose := o.verbose.GetOr(n.verbose),
      mode := o.mode.GetOr(n.mode),
      commands := Commands(
        o.linux.GetOr(n.commands.linux),
        o.macOS.GetOr(n.commands.macOS),
        o.windows.GetOr(n.commands.windows)),
      template := Template(o.templateDefault.GetOr(n.template.default)),
      levels := o.levels.GetOr(n.levels)))
  }

  /** What the file system and the decoder report about the configuration
      path. */
  datatype ConfigFile =
    | NotExist                                  // the file does not exist
    | Unreadable(readErr: string)               // it may exist, but reading fails
    | Read(decoded: Result<Overlay, string>)    // its bytes decoded to an overlay, or failed to

  /** `LoadConfig`: defaults for a missing file; otherwise the decoded file
      on top of the defaults, provided reading, decoding and validation all
      succeed. */
  function LoadConfig(file: ConfigFile): (r: Result<Config, string>)
    ensures file.NotExist? ==> r == Success(DefaultConfig())
    ensures file.Unreadable? ==> r == Failure("failed to read config file: " + file.readErr)
    ensures file.Read? && file.decoded.Failure? ==>
              r == Failure("failed to parse config file: " + file.decoded.error)
    ensures r.Success? ==> Validate(r.value).None?
    ensures file.Read? && file.decoded.Success? ==>
              var c := ApplyOverlay(DefaultConfig(), file.decoded.value);
              (r.Success? <==> Validate(c).None?)
              && (r.Success? ==> r.value == c)
              && (r.Failure? ==> r.error == "invalid configuration: " + Validate(c).value)
  {
    match file
    case NotExist => Success(DefaultConfig())
    case Unreadable(e) => Failure("failed to read config file: " + e)
    case Read(Failure(e)) => Failure("failed to parse config file: " + e)
    case Read(Success(o)) =>
      var cfg := ApplyOverlay(DefaultConfig(), o);
      match Validate(cfg)
      case Some(e) => Failure("invalid configuration: " + e)
      case None => Success(cfg)
  }

  /** Keys present in a loaded file win; absent keys keep their built-in
      values. */
  lemma LoadedFileOverlaysDefaults(o: Overlay)
    requires LoadConfig(Read(Success(o))).Success?
    ensures var n := LoadConfig(Read(Success(o))).value.notification;
            && n.dryRun == (o.dryRun.Some? && o.dryRun.value)
            && n.verbose == (o.verbose.Some? && o.verbose.value)
            && (o.mode.None? ==> n.mode == "library")
            && (o.mode.Some? ==> n.mode == o.mode.value)
            && (o.templateDefault.None? ==> n.template.default == DefaultTemplate)
            && (o.templateDefault.Some? ==> n.template.default == o.templateDefault.value)
            && (o.levels.None? ==> n.levels == DefaultConfig().notification.levels)
  {
  }

  /** A file that only turns dry-run on loads, and everything else keeps its
      built-in value. */
  lemma DryRunOnlyFile()
    ensures LoadConfig(Read(Success(EmptyOverlay.(dryRun := Some(true))))) ==
            Success(DefaultConfig().(notification := DefaultConfig().notification.(dryRun := true)))
  {
  }

  /** A file that selects command mode without any command is rejected, and
      one that names a command for any one platform is accepted. */
  lemma CommandModeNeedsACommand(cmd: string)
    ensures LoadConfig(Read(Success(EmptyOverlay.(mode := Some("command"))))).Failure?
    ensures cmd != "" ==>
              LoadConfig(Read(Success(EmptyOverlay.(mode := Some("command"), linux := Some(cmd))))).Success?
    ensures cmd != "" ==>
              LoadConfig(Read(Success(EmptyOverlay.(mode := Some("command"), macOS := Some(cmd))))).Success?
    ensures cmd != "" ==>
              LoadConfig(Read(Success(EmptyOverlay.(mode := Some("command"), windows := Some(cmd))))).Success?
  {
  }

  /** `os.Getenv`: the empty string for an unset variable. */
  function Getenv(env: map<string, string>, name: string): string {
    if name in env then env[name] else ""
  }

  const AppDir: string := "mcp-desktop-notification"
  const FileName: string := "config.yaml"

  /** The path separator `filepath.Join` uses on the platform `goos`. */
  function Separator(goos: string): char {
    if goos == "windows" then '\\' else '/'
  }

  /** The directory the application directory is placed under: on Windows
      `%APPDATA%`, falling back to `%USERPROFILE%\AppData\Roaming`; elsewhere
      `$XDG_CONFIG_HOME`, falling back to `$HOME/.config`. */
  function ConfigBase(goos: string, env: map<string, string>): string {
    var sep := Separator(goos);
    if goos == "windows" then
      var appData := Getenv(env, "APPDATA");
      if appData == "" then FilePath.Join(sep, [Getenv(env, "USERPROFILE"), "AppData", "Roaming"]) else appData
    else
      var xdg := Getenv(env, "XDG_CONFIG_HOME");
      if xdg == "" then FilePath.Join(sep, [Getenv(env, "HOME"), ".config"]) else xdg
  }

  /** What follows the base directory in the configuration path. */
  const UnixTail: string := "/mcp-desktop-notification/config.yaml"
  const WindowsTail: string := "\\mcp-desktop-notification\\config.yaml"

  /** `GetConfigPath` for the platform `goos` and the environment `env`. */
  function GetConfigPath(goos: string, env: map<string, string>): (path: string)
    ensures goos != "windows" && Getenv(env, "XDG_CONFIG_HOME") != "" ==>
              path == Getenv(env, "XDG_CONFIG_HOME") + UnixTail
    ensures goos != "windows" && Getenv(env, "XDG_CONFIG_HOME") == "" && Getenv(env, "HOME") != "" ==>
              path == Getenv(env, "HOME") + "/.config" + UnixTail
    ensures goos != "windows" && Getenv(env, "XDG_CONFIG_HOME") == "" && Getenv(env, "HOME") == "" ==>
              path == ".config" + UnixTail
    ensures goos == "windows" && Getenv(env, "APPDATA") != "" ==>
              path == Getenv(env, "APPDATA") + WindowsTail
    ensures goos == "windows" && Getenv(env, "APPDATA") == "" && Getenv(env, "USERPROFILE") != "" ==>
              path == Getenv(env, "USERPROFILE") + "\\AppData\\Roaming" + WindowsTail
    ensures goos == "windows" && Getenv(env, "APPDATA") == "" && Getenv(env, "USERPROFILE") == "" ==>
              path == "AppData\\Roaming" + WindowsTail
  {
    var sep := Separator(goos);
    var base := ConfigBase(goos, env);
    PathUnder(goos, env);
    UnixBase(goos, env);
    WindowsBase(env);
    FilePath.Join(sep, [base, AppDir, FileName])
  }

  /** The joined path is the base directory followed by the platform tail. */
  lemma PathUnder(goos: string, env: map<string, string>)
    ensures FilePath.Join(Separator(goos), [ConfigBase(goos, env), AppDir, FileName])
            == ConfigBase(goos, env) + (if goos == "windows" then WindowsTail else UnixTail)
  {
    BaseNotEmpty(goos, env);
    Tails();
    if goos == "windows" {
      JoinAppFile('\\', ConfigBase(goos, env));
    } else {
      JoinAppFile('/', ConfigBase(goos, env));
    }
  }

  /** Joining a non-empty base with the application directory and file. */
  lemma JoinAppFile(sep: char, base: string)
    requires base != ""
    ensures FilePath.Join(sep, [base, AppDir, FileName]) == base + ([sep] + AppDir + [sep] + FileName)
  {
    FilePath.JoinThree(sep, base, AppDir, FileName);
  }

  /** The tails spelled out element by element. */
  lemma Tails()
    ensures UnixTail == ['/'] + AppDir + ['/'] + FileName
    ensures WindowsTail == ['\\'] + AppDir + ['\\'] + FileName
  {
  }

  /** The base directory is never empty: each fallback names a directory. */
  lemma BaseNotEmpty(goos: string, env: map<string, string>)
    ensures ConfigBase(goos, env) != ""
  {
    assert [Getenv(env, "HOME"), ".config"][1] != "";
    assert [Getenv(env, "USERPROFILE"), "AppData", "Roaming"][1] != "";
  }

  /** The base directory outside Windows when `XDG_CONFIG_HOME` is unset. */
  lemma UnixBase(goos: string, env: map<string, string>)
    ensures goos != "windows" && Getenv(env, "XDG_CONFIG_HOME") == "" && Getenv(env, "HOME") == "" ==>
              ConfigBase(goos, env) == ".config"
    ensures goos != "windows" && Getenv(env, "XDG_CONFIG_HOME") == "" && Getenv(env, "HOME") != "" ==>
              ConfigBase(goos, env) == Getenv(env, "HOME") + "/.config"
  {
    FilePath.JoinTwo('/', Getenv(env, "HOME"), ".config");
    assert Getenv(env, "HOME") + ['/'] + ".config" == Getenv(env, "HOME") + "/.config";
  }

  /** The Windows base directory when `APPDATA` is unset: under the user
      profile, or relative when that is unset too. */
  lemma WindowsBase(env: map<string, string>)
    ensures Getenv(env, "APPDATA") == "" && Getenv(env, "USERPROFILE") != "" ==>
              ConfigBase("windows", env) == Getenv(env, "USERPROFILE") + "\\AppData\\Roaming"
    ensures Getenv(env, "APPDATA") == "" && Getenv(env, "USERPROFILE") == "" ==>
              ConfigBase("windows", env) == "AppData\\Roaming"
  {
    var profile := Getenv(env, "USERPROFILE");
    FilePath.JoinThree('\\', profile, "AppData", "Roaming");
    assert ['\\'] + ("AppData" + ['\\'] + "Roaming") == "\\AppData\\Roaming";
    assert profile + ['\\'] + ("AppData" + ['\\'] + "Roaming") == profile + "\\AppData\\Roaming";
  }

  /** Whatever the environment holds, the last two elements of the
      configuration path are the application directory and the file name. */
  lemma ConfigPathEndsInAppFile(goos: string, env: map<string, string>)
    ensures var pieces := FilePath.Split(Separator(goos), GetConfigPath(goos, env));
            |pieces| >= 2 && pieces[|pieces| - 2..] == [AppDir, FileName]
  {
    FilePath.JoinUnder(Separator(goos), ConfigBase(goos, env), AppDir, FileName);
  }

  /** `$XDG_CONFIG_HOME` wins over `$HOME` when it is set. */
  lemma XdgConfigHomeExample(home: string)
    ensures GetConfigPath("linux", map["XDG_CONFIG_HOME" := "/custom/config", "HOME" := home])
            == "/custom/config/mcp-desktop-notification/config.yaml"
  {
    var env := map["XDG_CONFIG_HOME" := "/custom/config", "HOME" := home];
    assert Getenv(env, "XDG_CONFIG_HOME") == "/custom/config";
    XdgConfigHomeExampleText();
  }

  lemma XdgConfigHomeExampleText()
    ensures "/custom/config" + UnixTail == "/custom/config/mcp-desktop-notification/config.yaml"
  {
  }

  /** Without `$XDG_CONFIG_HOME` the path lies under `$HOME/.config`. */
  lemma HomeFallbackExample()
    ensures GetConfigPath("linux", map["HOME" := "/home/user"])
            == "/home/user/.config/mcp-desktop-notification/config.yaml"
  {
    var env := map["HOME" := "/home/user"];
    assert Getenv(env, "XDG_CONFIG_HOME") == "";
    assert Getenv(env, "HOME") == "/home/user";
    assert "/home/user" + "/.config" == "/home/user/.config";
    HomeFallbackExampleText();
  }

  lemma HomeFallbackExampleText()
    ensures "/home/user/.config" + UnixTail == "/home/user/.config/mcp-desktop-notification/config.yaml"
  {
  }

  /** On Windows the path lies under `%APPDATA%`. */
  lemma AppDataExample()
    ensures GetConfigPath("windows", map["APPDATA" := "C:\\Users\\TestUser\\AppData\\Roaming"])
            == "C:\\Users\\TestUser\\AppData\\Roaming\\mcp-desktop-notification\\config.yaml"
  {
    var appData := "C:\\Users\\TestUser\\AppData\\Roaming";
    assert Getenv(map["APPDATA" := appData], "APPDATA") == appData;
    AppDataExampleText();
  }

  lemma AppDataExampleText()
    ensures "C:\\Users\\TestUser\\AppData\\Roaming" + WindowsTail
            == "C:\\Users\\TestUser\\AppData\\Roaming\\mcp-desktop-notification\\config.yaml"
  {
  }
}
