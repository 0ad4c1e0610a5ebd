# Desktop-notification tool server: a Dafny model

This project models the decision logic of a small stdio tool server. The
server offers one tool, `poke`, which sends a desktop notification. The
model has four modules, one file each:

- `Configuration` (`config.dfy`): the configuration record and its
  built-in defaults. It also holds the validity rule (`Validate`), the
  decision chain that loads a configuration file (`LoadConfig`) and the
  choice of the default file path (`GetConfigPath`).
- `Notifiers` (`notifier.dfy`): the notifier as a closed datatype. It has
  two variants: `Library`, which hands the notification to the platform
  facility, and `DryRun`, which only logs it. This module also covers
  notifier construction (`NewNotifier`), the per-level lookups
  (`GetUrgency`, `GetIcon`) and `Send`.
- `Mcp` (`server.dfy`): the `poke` handler. It covers the typed argument
  validator (`ValidatePokeArgs`), the legacy validator over an untyped
  parameter map (`ValidatePokeParams`) and the handler itself
  (`HandlePokeTool`).
- `FilePath` (`filepath.dfy`) and `Wrappers` (`wrappers.dfy`) are helpers.
  `FilePath` models `filepath.Join`, together with `Split`, its inverse,
  against which `Join` is checked. `Wrappers` holds the `Option` and
  `Result` types.

The outside world enters the model as plain values:

- The platform notification facility: `Send` takes the facility's answer
  as `facilityErr` (`None` means success). It returns the call it made, so
  the icon passed on, and the fact that dry-run never calls the facility,
  can be observed.
- The notifier call inside the handler: `HandlePokeTool` returns the `Send`
  it issued, if any. So "nothing is sent when validation fails" is a
  property of the result.
- The file system and the YAML decoder: `LoadConfig` takes a `ConfigFile`.
  This is one of three cases. The file does not exist; it cannot be read;
  or its bytes were read and decoded into an `Overlay` or a decoding error.
- The operating system and the environment: `GetConfigPath` takes `goos`
  and an environment map. An unset variable reads as `""`, as `os.Getenv`
  does.

## Notes on the code

- Validation (internal/config/config.go:83-99) rejects every mode other
  than "library" and "command", and rejects "command" when no platform
  command is set.
- Validation accepts mode "command" (internal/config/config.go:85-96), but
  `NewNotifier` refuses every non-dry-run mode other than "library"
  (internal/notifier/notifier.go:35-39). `Notifiers.ValidConfigNotifierIffLibrary`
  and `Notifiers.CommandModeFileLoadsButHasNoNotifier` state this.
- `Send` looks up only the icon. `getUrgency` is never called outside its
  test (internal/notifier/notifier_test.go).
- A delivery error reaches the tool caller wrapped twice:
  `Failed to send notification: failed to send notification: <cause>`
  (`Mcp.LibraryHandlerWrapsFacilityError`).

## Model

| member | source | states |
|---|---|---|
| `Configuration.DefaultConfig` | internal/config/config.go:46-80 | dry-run and verbose are off, the mode is "library", all three commands are empty, the template is non-empty, and the level keys are exactly info, warning, error and success |
| `Configuration.Validate` | internal/config/config.go:83-99 | succeeds exactly when the mode is "library" or "command" and, in command mode, at least one platform command is non-empty; gives the source's error text for each kind of failure |
| `Configuration.DefaultConfigIsValid` | internal/config/config.go:46-99 | the built-in configuration passes validation |
| `Configuration.LoadConfig` | internal/config/config.go:102-128 | a missing file gives the defaults with no error; a read failure and a decoding failure give the wrapped errors; otherwise the decoded file on top of the defaults is returned exactly when it validates, and every successful result validates |
| `Configuration.LoadedFileOverlaysDefaults` | internal/config/config.go:115-120 | after a successful load, dry_run, verbose, mode and template.default take the file's values when present and keep the built-in values (false, false, "library", the default template) when absent; absent levels keep the built-in map |
| `Configuration.DryRunOnlyFile` | internal/config/config.go:109-127 | a file that only sets dry_run: true loads as the defaults with dry-run on |
| `Configuration.CommandModeNeedsACommand` | internal/config/config.go:90-96 | loading a file that selects command mode fails without a command and succeeds with a command for Linux, macOS or Windows alone |
| `Configuration.GetConfigPath` | internal/config/config.go:131-147 | outside Windows the path is `$XDG_CONFIG_HOME/mcp-desktop-notification/config.yaml`, falling back to `$HOME/.config/...` (and to `.config/...` when HOME is empty too); on Windows it is `%APPDATA%\mcp-desktop-notification\config.yaml`, falling back to `%USERPROFILE%\AppData\Roaming\...` (and to the relative `AppData\Roaming\...` when USERPROFILE is empty too) |
| `Configuration.ConfigPathEndsInAppFile` | internal/config/config.go:131-147 | for every platform and environment, the last two path elements are `mcp-desktop-notification` and `config.yaml` |
| `Configuration.XdgConfigHomeExample` | internal/config/config.go:142-146 | with XDG_CONFIG_HOME=/custom/config the path is /custom/config/mcp-desktop-notification/config.yaml, whatever HOME is |
| `Configuration.HomeFallbackExample` | internal/config/config.go:142-146 | with only HOME=/home/user the path is /home/user/.config/mcp-desktop-notification/config.yaml |
| `Configuration.AppDataExample` | internal/config/config.go:132-139 | on Windows with APPDATA=`C:\Users\TestUser\AppData\Roaming` (and nothing else set), the path is `C:\Users\TestUser\AppData\Roaming\mcp-desktop-notification\config.yaml` |
| `FilePath.Join` | internal/config/config.go:136-146 | the joined path is empty exactly when every element is empty |
| `FilePath.SplitJoin` | internal/config/config.go:136-146 | when no element holds a separator and at least one is non-empty, splitting the joined path gives back exactly the non-empty elements |
| `Notifiers.NewNotifier` | internal/notifier/notifier.go:28-40 | dry-run gives the dry-run variant whatever the mode is; otherwise it succeeds exactly for mode "library", with the library variant, and fails with "unsupported notification mode: <mode>" |
| `Notifiers.GetUrgency` | internal/notifier/notifier.go:70-75 | the configured urgency of a level that has an entry, "normal" for one that has none |
| `Notifiers.GetIcon` | internal/notifier/notifier.go:78-83 | the configured icon of a level that has an entry, "" for one that has none |
| `Notifiers.Send` | internal/notifier/notifier.go:43-66 | dry-run returns no error and makes no facility call; the library variant calls the facility with the title, the message and the level's icon, and succeeds exactly when the facility does, wrapping its error as "failed to send notification: ..." |
| `Notifiers.DefaultUrgencies` | internal/notifier/notifier.go:70-75 | under the defaults: info and warning are normal, error is critical, success is low, and any other level is normal |
| `Notifiers.DefaultIcons` | internal/notifier/notifier.go:78-83 | under the defaults: info has no icon, warning, error and success have dialog-warning, dialog-error and dialog-information, and any other level has none |
| `Notifiers.DryRunAlwaysSucceeds` | internal/notifier/notifier.go:30-66 | with dry-run on, construction succeeds and every send succeeds without reaching the facility, whatever it would have answered |
| `Notifiers.ValidConfigNotifierIffLibrary` | internal/notifier/notifier.go:35-39 | for a configuration that validates and has dry-run off, construction succeeds exactly in mode "library" and fails exactly in mode "command" |
| `Notifiers.StartupFailsOnlyForCommandMode` | internal/notifier/notifier.go:28-40 | after any successful load, construction fails exactly when dry-run is off and the mode is "command" |
| `Notifiers.CommandModeFileLoadsButHasNoNotifier` | internal/notifier/notifier.go:35-39 | a file with mode "command" and a Linux command loads successfully, and construction then fails with "unsupported notification mode: command" |
| `Mcp.ValidatePokeArgs` | internal/mcp/server.go:109-140 | an empty message is rejected with three empty strings whatever the other fields are; success holds exactly when the message is non-empty and the level is empty or valid; on success the message is unchanged, an empty title becomes "Notification", an empty level becomes "info", and the level is valid; a non-empty invalid level gives "invalid level: ..." |
| `Mcp.ValidatePokeArgsIdempotent` | internal/mcp/server.go:109-140 | feeding accepted fields back into the validator gives the same fields |
| `Mcp.ValidatePokeParams` | internal/mcp/server.go:143-186 | rejects a missing message key, a non-string message and an empty message with their own error texts; succeeds exactly when the message is a non-empty string and any string level is valid; a title or level that is absent or not a string defaults, a string title is kept even when empty; an invalid string level is rejected with "invalid level: <level> (must be one of: info, warning, error, success)" and three empty strings |
| `Mcp.EncodeArgs` | internal/mcp/server.go:20-25 | the parameter map of typed arguments always has the message, and has the title or level exactly when it is non-empty, each stored as the string it holds |
| `Mcp.ValidatorsAgreeOnEncodedArgs` | internal/mcp/server.go:109-186 | on every request encoded as the typed arguments are, the legacy validator returns exactly what the typed one does |
| `Mcp.ValidatorsDifferOnExplicitEmpty` | internal/mcp/server.go:160-185 | an explicit empty title stays empty in the legacy validator but becomes "Notification" in the typed one; an explicit empty level is rejected by the legacy validator but becomes "info" in the typed one |
| `Mcp.NonStringLevelIgnored` | internal/mcp/server.go:167-183 | a level that is present but not a string is ignored, and the default level is used |
| `Mcp.HandlePokeTool` | internal/mcp/server.go:70-106 | when validation fails, the handler returns the validation error and calls Send zero times; otherwise it calls Send exactly once with the validated title, message and level; the facility call reported is the one Send made; the handler fails exactly when Send returns an error, which comes back prefixed "Failed to send notification: "; a success carries the single text "Notification sent: <title> - <message> [<level>]" |
| `Mcp.DryRunHandlerSucceedsIffValid` | internal/mcp/server.go:70-105 | with the dry-run notifier the handler succeeds exactly on the requests validation accepts, and never reaches the facility |
| `Mcp.LibraryHandlerSucceedsIff` | internal/mcp/server.go:86-105 | with the library notifier the handler succeeds exactly when validation and the facility both succeed |
| `Mcp.LibraryHandlerWrapsFacilityError` | internal/mcp/server.go:87-93 | a facility error reaches the caller as "Failed to send notification: failed to send notification: <cause>" |
| `Mcp.LibraryHandlerPassesIcon` | internal/mcp/server.go:86-87 | the facility receives the validated title, the validated message and the configured icon of the validated level |
| `Mcp.ValidatedLevelsUseBuiltInEntries` | internal/notifier/notifier.go:69-83 | when no levels come from a file, every validated level has an entry, and the urgency and icon looked up for it are that built-in entry's, never the fallbacks |
| `Mcp.DefaultLevelsMatchValidLevels` | internal/mcp/server.go:128-137 | the built-in level keys are exactly the four valid levels, so a validated level always has a configured entry |
| `Mcp.DefaultsScenario` | internal/mcp/server.go:100-105 | a request carrying only the message "Build complete" is confirmed as "Notification sent: Notification - Build complete [info]" |
| `Mcp.RejectionScenarios` | internal/mcp/server.go:109-137 | an empty message is rejected with "message cannot be empty" and the level "critical" is rejected with an error that starts "invalid level: critical"; neither sends anything |

## Left out

- The protocol transport and tool registration (`Start`,
  `registerPokeToolHandler`) are calls into an external SDK, so they are
  not modelled.
- `NewServer` (internal/mcp/server.go:28-33) only stores its two
  arguments; the handler takes the notifier as a parameter instead.
- All verbose and dry-run logging is left out. It has side effects only
  and changes no result.
- The platform notification call is an outside call. It enters only as
  the `facilityErr` parameter.
- The notifiers use the platform name only in their log lines
  (internal/notifier/notifier.go:50, 65), so it is dropped with the
  logging. `GetConfigPath` takes it as its `goos` parameter.
- YAML decoding is left out; its result is the `Overlay` input. For
  `levels`, the overlay carries the whole map the decoder leaves behind. The
  model claims neither per-key merging nor whole-map replacement, since
  both depend on the decoder.
- `Configuration.LoadConfig` works on what the file system reports (`ConfigFile`),
  not on a path. A `Stat` failure other than "does not exist" therefore
  shows up only as the outcome of the read that follows.
- `LoadDefaultConfig` (internal/config/config.go:150-152) is not a
  separate member. It is `LoadConfig` applied to whatever the file system
  reports for the `GetConfigPath` result.
- `Configuration.GetConfigPath`: the model drops empty elements and joins
  the rest with the separator, but does not apply the lexical cleaning of
  `filepath.Join`. Trailing or repeated separators, `.` and `..` elements,
  and Windows volume names in the environment values are therefore not
  normalised. The results agree on ordinary values such as `/home/user`
  or `C:\Users\x\AppData\Roaming`, and differ on others. For example,
  HOME=`/` gives `//.config/...` where Go gives `/.config/...`, and
  HOME=`/home//user` keeps its doubled separator where Go removes it.
- `FilePath.Join`: this is `filepath.Join` before its lexical cleaning
  step. Go's `Join("a", "..")` is `.`, where the model gives `a/..`. The
  round trip `FilePath.SplitJoin` holds of the uncleaned join only.
- The command-line flags in main.go are left out. They can force verbose
  and dry-run on, never off; the entry point is not modelled.
- `getAppName` is not part of this model. Its implementation is not in
  internal/notifier/notifier.go.
- The message template is stored and defaulted, but none of the modelled
  code renders it.
