/** The notifier (package `notifier`): a closed choice between the variant
    that hands notifications to the platform notification facility and the
    dry-run variant that only logs them.

    The facility itself is not modelled. What it would answer for a call is
    a parameter (`None` for success, `Some(e)` for its error), and `Send`
    reports the call it made so that callers can see what was passed on. */
module Notifiers {
  import opened Wrappers
  import opened Configuration

  /** `LibraryNotifier` or `DryRunNotifier`, each holding the configuration
      it was built from. */
  datatype Notifier = Library(config: Config) | DryRun(config: Config)

  /** `NewNotifier`: dry-run wins over every mode; otherwise only the
      "library" mode is supported. */
  function NewNotifier(cfg: Config): (r: Result<Notifier, string>)
    ensures cfg.notification.dryRun ==> r == Success(DryRun(cfg))
    ensures !cfg.notification.dryRun ==> (r.Success? <==> cfg.notification.mode == "library")
    ensures r.Success? && !cfg.notification.dryRun ==> r.value == Library(cfg)
    ensures r.Failure? ==> r.error == "unsupported notification mode: " + cfg.notification.mode
  {
    if cfg.notification.dryRun then Success(DryRun(cfg))
    else if cfg.notification.mode == "library" then Success(Library(cfg))
    else Failure("unsupported notification mode: " + cfg.notification.mode)
  }

  /** `getUrgency`: the configured urgency of `level`, "normal" when the
      level has no entry. */
  function GetUrgency(n: Notifier, level: string): (urgency: string)
    requires n.Library?
    ensures level in n.config.notification.levels ==> urgency == n.config.notification.levels[level].urgency
    ensures level !in n.config.notification.levels ==> urgency == "normal"
  {
    var levels := n.config.notification.levels;
    if level in levels then levels[level].urgency else "normal"
  }

  /** `getIcon`: the configured icon of `level`, none when the level has no
      entry. */
  function GetIcon(n: Notifier, level: string): (icon: string)
    requires n.Library?
    ensures level in n.config.notification.levels ==> icon == n.config.notification.levels[level].icon
    ensures level !in n.config.notification.levels ==> icon == ""
  {
    var levels := n.config.notification.levels;
    if level in levels then levels[level].icon else ""
  }

  /** One call of the platform notification facility. */
  datatype NotifyCall = NotifyCall(title: string, message: string, icon: string)

  /** What `Send` returned, and the facility call it made, if any. */
  datatype Delivery = Delivery(err: Option<string>, call: Option<NotifyCall>)

  /** `Send(title, message, level)` on either variant, where `facilityErr`
      is what the facility answers when it is called. */
  function Send(n: Notifier, title: string, message: string, level: string, facilityErr: Option<string>): (d: Delivery)
    ensures n.DryRun? ==> d == Delivery(None, None)
    ensures n.Library? ==> d.call == Some(NotifyCall(title, message, GetIcon(n, level)))
    ensures n.Library? ==> (d.err.None? <==> facilityErr.None?)
    ensures n.Library? && facilityErr.Some? ==>
              d.err == Some("failed to send notification: " + facilityErr.value)
  {
    match n
    case DryRun(_) => Delivery(None, None)
    case Library(_) =>
      var call := NotifyCall(title, message, GetIcon(n, level));
      match facilityErr
      case Some(e) => Delivery(Some("failed to send notification: " + e), Some(call))
      case None => Delivery(None, Some(call))
  }

  /** Under the built-in configuration: info, warning and unknown levels are
      "normal", error is "critical", success is "low". */
  lemma DefaultUrgencies(level: string)
    ensures var n := Library(DefaultConfig());
            && GetUrgency(n, "info") == "normal"
            && GetUrgency(n, "warning") == "normal"
            && GetUrgency(n, "error") == "critical"
            && GetUrgency(n, "success") == "low"
            && (level !in {"info", "warning", "error", "success"} ==> GetUrgency(n, level) == "normal")
  {
  }

  /** Under the built-in configuration: info has no icon, the other three
      levels have their dialog icons, and unknown levels have none. */
  lemma DefaultIcons(level: string)
    ensures var n := Library(DefaultConfig());
            && GetIcon(n, "info") == ""
            && GetIcon(n, "warning") == "dialog-warning"
            && GetIcon(n, "error") == "dialog-error"
            && GetIcon(n, "success") == "dialog-information"
            && (level !in {"info", "warning", "error", "success"} ==> GetIcon(n, level) == "")
  {
  }

  /** The dry-run variant succeeds on every request and never reaches the
      facility, whatever the facility would have answered. */
  lemma DryRunAlwaysSucceeds(cfg: Config, title: string, message: string, level: string, facilityErr: Option<string>)
    requires cfg.notification.dryRun
    ensures NewNotifier(cfg).Success?
    ensures Send(NewNotifier(cfg).value, title, message, level, facilityErr) == Delivery(None, None)
  {
  }

  /** A configuration that validates is not necessarily one a notifier can
      be built from: without dry-run, the "command" mode passes validation
      and is then refused. */
  lemma ValidConfigNotifierIffLibrary(cfg: Config)
    requires Validate(cfg).None?
    requires !cfg.notification.dryRun
    ensures NewNotifier(cfg).Success? <==> cfg.notification.mode == "library"
    ensures NewNotifier(cfg).Failure? <==> cfg.notification.mode == "command"
  {
  }

  /** Start-up in one piece: after a successful load, building the notifier
      fails exactly for a command-mode configuration without dry-run. */
  lemma StartupFailsOnlyForCommandMode(file: ConfigFile)
    requires LoadConfig(file).Success?
    ensures var cfg := LoadConfig(file).value;
            NewNotifier(cfg).Failure? <==> !cfg.notification.dryRun && cfg.notification.mode == "command"
  {
  }

  /** A concrete configuration file that loads and validates, and from which
      no notifier can be built. */
  lemma CommandModeFileLoadsButHasNoNotifier()
    ensures var file := Read(Success(EmptyOverlay.(mode := Some("command"), linux := Some("notify-send"))));
            && LoadConfig(file).Success?
            && NewNotifier(LoadConfig(file).value) == Failure("unsupported notification mode: command")
  {
    assert "unsupported notification mode: " + "command" == "unsupported notification mode: command";
  }
}
