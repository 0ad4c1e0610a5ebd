/** The `poke` tool of the notification server (package `mcp`): argument
    validation with defaults, the legacy validator over an untyped parameter
    map, and the handler that validates, sends and reports. */
module Mcp {
  import opened Wrappers
  import opened Configuration
  import opened Notifiers

  /** The typed arguments of one `poke` call. */
  datatype PokeArgs = PokeArgs(message: string, title: string, level: string)

  /** The severity levels a request may name. */
  const ValidLevels: set<string> := {"info", "warning", "error", "success"}

  const DefaultTitle: string := "Notification"
  const DefaultLevel: string := "info"

  /** The four results of a validator: message, title, level and error.
      On an error the three strings are empty. */
  datatype Fields = Fields(message: string, title: string, level: string, err: Option<string>)

  const EmptyMessageError: string := "message cannot be empty"

  function InvalidLevelError(level: string): string {
    "invalid level: " + level + " (must be one of: info, warning, error, success)"
  }

  /** A failed validation. */
  function Rejected(e: string): (r: Fields)
    ensures r.err == Some(e) && r.message == r.title == r.level == ""
  {
    Fields("", "", "", Some(e))
  }

  /** `validatePokeArgs`: a non-empty message is required; an empty title
      becomes "Notification", an empty level becomes "info", and the level
      must then be one of the four valid ones. */
  function ValidatePokeArgs(args: PokeArgs): (r: Fields)
    ensures args.message == "" ==> r == Rejected(EmptyMessageError)
    ensures r.err.None? <==> args.message != "" && (args.level == "" || args.level in ValidLevels)
    ensures args.message != "" && args.level != "" && args.level !in ValidLevels ==>
              r == Rejected(InvalidLevelError(args.level))
    ensures r.err.None? ==>
              && r.message == args.message
              && r.title == (if args.title == "" then DefaultTitle else args.title)
              && r.level == (if args.level == "" then DefaultLevel else args.level)
              && r.level in ValidLevels
              && r.title != ""
  {
    if args.message == "" then Rejected(EmptyMessageError)
    else
      var title := if args.title == "" then DefaultTitle else args.title;
      var level := if args.level == "" then DefaultLevel else args.level;
      if level !in ValidLevels then Rejected(InvalidLevelError(level))
      else Fields(args.message, title, level, None)
  }

  /** Validation is idempotent: feeding accepted fields back in gives the
      same fields. */
  lemma ValidatePokeArgsIdempotent(args: PokeArgs)
    requires ValidatePokeArgs(args).err.None?
    ensures var r := ValidatePokeArgs(args);
            ValidatePokeArgs(PokeArgs(r.message, r.title, r.level)) == r
  {
  }

  /** A dynamically typed JSON value, as found in an untyped parameter map.
      Every kind other than a string behaves alike. */
  datatype Value = Str(s: string) | Number(n: int) | Boolean(b: bool) | Null

  /** `validatePokeParams`: the message key must be present, a string, and
      non-empty. A title or level that is absent or not a string is replaced
      by its default; a string title is kept even when empty, and a string
      level, even an empty one, must be valid. */
  function ValidatePokeParams(params: map<string, Value>): (r: Fields)
    ensures "message" !in params ==> r == Rejected("missing required parameter: message")
    ensures "message" in params && !params["message"].Str? ==> r == Rejected("message must be a string")
    ensures "message" in params && params["message"] == Str("") ==> r == Rejected(EmptyMessageError)
    ensures && "message" in params && params["message"].Str? && params["message"].s != ""
            && "level" in params && params["level"].Str? && params["level"].s !in ValidLevels ==>
              r == Rejected(InvalidLevelError(params["level"].s))
    ensures r.err.None? <==>
              && "message" in params && params["message"].Str? && params["message"].s != ""
              && ("level" in params && params["level"].Str? ==> params["level"].s in ValidLevels)
    ensures r.err.None? ==>
              && Str(r.message) == params["message"]
              && r.title == (if "title" in params && params["title"].Str? then params["title"].s else DefaultTitle)
              && r.level == (if "level" in params && params["level"].Str? then params["level"].s else DefaultLevel)
              && r.level in ValidLevels
  {
    if "message" !in params then Rejected("missing required parameter: message")
    else if !params["message"].Str? then Rejected("message must be a string")
    else if params["message"].s == "" then Rejected(EmptyMessageError)
    else
      var title := if "title" in params && params["title"].Str? then params["title"].s else DefaultTitle;
      if "level" in params && params["level"].Str? then
        var level := params["level"].s;
        if level !in ValidLevels then Rejected(InvalidLevelError(level))
        else Fields(params["message"].s, title, level, None)
      else Fields(params["message"].s, title, DefaultLevel, None)
  }

  /** The parameter map the typed arguments encode to: `message` always,
      `title` and `level` only when non-empty (their JSON tags say
      `omitempty`). */
  function EncodeArgs(args: PokeArgs): (params: map<string, Value>)
    ensures params.Keys <= {"message", "title", "level"}
    ensures "message" in params && params["message"] == Str(args.message)
    ensures "title" in params <==> args.title != ""
    ensures "level" in params <==> args.level != ""
    ensures "title" in params ==> params["title"] == Str(args.title)
    ensures "level" in params ==> params["level"] == Str(args.level)
  {
    var m := map["message" := Str(args.message)];
    var m := if args.title == "" then m else m["title" := Str(args.title)];
    if args.level == "" then m else m["level" := Str(args.level)]
  }

  /** The two validators agree on every request encoded the way the typed
      arguments are encoded. */
  lemma ValidatorsAgreeOnEncodedArgs(args: PokeArgs)
    ensures ValidatePokeParams(EncodeArgs(args)) == ValidatePokeArgs(args)
  {
  }

  /** Where the validators differ: an empty title or level sent explicitly
      as a string. The legacy validator keeps the empty title and rejects
      the empty level, where the typed one substitutes the defaults. */
  lemma ValidatorsDifferOnExplicitEmpty(message: string, level: string)
    requires message != "" && level in ValidLevels
    ensures var args := PokeArgs(message, "", level);
            var typed := ValidatePokeArgs(args);
            var legacy := ValidatePokeParams(map["message" := Str(message), "title" := Str(""), "level" := Str(level)]);
            typed.err.None? && legacy.err.None? && typed.title == DefaultTitle && legacy.title == ""
    ensures var legacy := ValidatePokeParams(map["message" := Str(message), "level" := Str("")]);
            ValidatePokeArgs(PokeArgs(message, "", "")).err.None? && legacy == Rejected(InvalidLevelError(""))
  {
  }

  /** A level that is present but not a string counts as absent in the
      legacy validator. */
  lemma NonStringLevelIgnored(message: string, n: int)
    requires message != ""
    ensures ValidatePokeParams(map["message" := Str(message), "level" := Number(n)])
            == Fields(message, DefaultTitle, DefaultLevel, None)
  {
  }

  /** The text content of a tool result. */
  datatype Content = TextContent(text: string)

  /** A successful tool result. */
  datatype CallToolResult = CallToolResult(content: seq<Content>)

  /** One invocation of the notifier's `Send`. */
  datatype SendCall = SendCall(title: string, message: string, level: string)

  /** What the handler returned, the `Send` it issued (if any), and the
      facility call that `Send` made (if any). */
  datatype Handled = Handled(result: Result<CallToolResult, string>, sent: Option<SendCall>, delivered: Option<NotifyCall>)

  function Confirmation(title: string, message: string, level: string): string {
    "Notification sent: " + title + " - " + message + " [" + level + "]"
  }

  const SendFailurePrefix: string := "Failed to send notification: "

  /** `handlePokeTool` on notifier `n`, where `facilityErr` is what the
      platform facility answers if it is reached. */
  function HandlePokeTool(n: Notifier, args: PokeArgs, facilityErr: Option<string>): (h: Handled)
    ensures var v := ValidatePokeArgs(args);
            v.err.Some? ==> h == Handled(Failure(v.err.value), None, None)
    ensures var v := ValidatePokeArgs(args);
            v.err.None? ==> h.sent == Some(SendCall(v.title, v.message, v.level))
    ensures var v := ValidatePokeArgs(args);
            v.err.None? ==>
              var d := Send(n, v.title, v.message, v.level, facilityErr);
              h.delivered == d.call && (h.result.Failure? <==> d.err.Some?)
    ensures h.result.Failure? && h.sent.Some? ==>
              var d := Send(n, h.sent.value.title, h.sent.value.message, h.sent.value.level, facilityErr);
              d.err.Some? && h.result.error == SendFailurePrefix + d.err.value
    ensures h.result.Success? ==>
              var v := ValidatePokeArgs(args);
              && v.err.None?
              && h.result.value == CallToolResult([TextContent(Confirmation(v.title, v.message, v.level))])
  {
    var v := ValidatePokeArgs(args);
    if v.err.Some? then Handled(Failure(v.err.value), None, None)
    else
      var d := Send(n, v.title, v.message, v.level, facilityErr);
      var sent := Some(SendCall(v.title, v.message, v.level));
      match d.err
      case Some(e) => Handled(Failure(SendFailurePrefix + e), sent, d.call)
      case None => Handled(Success(CallToolResult([TextContent(Confirmation(v.title, v.message, v.level))])), sent, d.call)
  }

  /** In dry-run the handler succeeds exactly on the requests validation
      accepts, and never reaches the facility. */
  lemma DryRunHandlerSucceedsIffValid(cfg: Config, args: PokeArgs, facilityErr: Option<string>)
    ensures var h := HandlePokeTool(DryRun(cfg), args, facilityErr);
            (h.result.Success? <==> ValidatePokeArgs(args).err.None?) && h.delivered.None?
  {
  }

  /** With the library notifier the handler succeeds exactly when the
      request is valid and the facility succeeds. */
  lemma LibraryHandlerSucceedsIff(cfg: Config, args: PokeArgs, facilityErr: Option<string>)
    ensures HandlePokeTool(Library(cfg), args, facilityErr).result.Success?
            <==> ValidatePokeArgs(args).err.None? && facilityErr.None?
  {
  }

  /** A facility error reaches the caller wrapped twice: once by the
      notifier, once by the handler. */
  lemma LibraryHandlerWrapsFacilityError(cfg: Config, args: PokeArgs, e: string)
    requires ValidatePokeArgs(args).err.None?
    ensures HandlePokeTool(Library(cfg), args, Some(e)).result
            == Failure("Failed to send notification: failed to send notification: " + e)
  {
    assert SendFailurePrefix + ("failed to send notification: " + e)
        == "Failed to send notification: failed to send notification: " + e;
  }

  /** The facility receives the validated title and message and the
      configured icon of the validated level. */
  lemma LibraryHandlerPassesIcon(cfg: Config, args: PokeArgs, facilityErr: Option<string>)
    requires ValidatePokeArgs(args).err.None?
    ensures var v := ValidatePokeArgs(args);
            HandlePokeTool(Library(cfg), args, facilityErr).delivered
            == Some(NotifyCall(v.title, v.message, GetIcon(Library(cfg), v.level)))
  {
  }

  /** The built-in configuration has an entry for every valid level and no
      other, so a validated request never falls back to the default urgency
      or icon. */
  lemma DefaultLevelsMatchValidLevels(args: PokeArgs)
    ensures DefaultConfig().notification.levels.Keys == ValidLevels
    ensures var v := ValidatePokeArgs(args);
            v.err.None? ==> v.level in DefaultConfig().notification.levels
  {
  }

  /** With no levels from a file, the urgency and icon of every validated
      level come from the built-in entry for that level, never from the
      "normal" and no-icon fallbacks. */
  lemma ValidatedLevelsUseBuiltInEntries(file: ConfigFile, args: PokeArgs)
    requires LoadConfig(file).Success?
    requires file.NotExist? || (file.Read? && file.decoded.Success? && file.decoded.value.levels.None?)
    requires ValidatePokeArgs(args).err.None?
    ensures var level := ValidatePokeArgs(args).level;
            var n := Library(LoadConfig(file).value);
            && level in n.config.notification.levels
            && n.config.notification.levels[level] == DefaultConfig().notification.levels[level]
            && GetUrgency(n, level) == DefaultConfig().notification.levels[level].urgency
            && GetIcon(n, level) == DefaultConfig().notification.levels[level].icon
  {
  }

  /** The request with only a message confirms with both defaults. */
  lemma DefaultsScenario()
    ensures HandlePokeTool(DryRun(DefaultConfig()), PokeArgs("Build complete", "", ""), None).result
            == Success(CallToolResult([TextContent("Notification sent: Notification - Build complete [info]")]))
  {
    assert Confirmation(DefaultTitle, "Build complete", DefaultLevel)
        == "Notification sent: Notification - Build complete [info]";
  }

  /** An empty message is refused before anything is sent, and an unknown
      level is refused with its name in the error. */
  lemma RejectionScenarios(n: Notifier, facilityErr: Option<string>)
    ensures HandlePokeTool(n, PokeArgs("", "X", "error"), facilityErr)
            == Handled(Failure("message cannot be empty"), None, None)
    ensures HandlePokeTool(n, PokeArgs("Oops", "", "critical"), facilityErr)
            == Handled(Failure(InvalidLevelError("critical")), None, None)
    ensures "invalid level: critical" <= InvalidLevelError("critical")
  {
    assert "invalid level: " + "critical" == "invalid level: critical";
  }
}
