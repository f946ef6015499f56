/**
 * The client's delivery of one request over the named pipe: the bounded
 * retry loop of `send_to_pipe`, and `main`, which sends only once the
 * configuration has been loaded, layered and checked again.
 *
 * What each connection attempt meets is an input, `outcome(i)` for the
 * attempt counted `i`.
 */
module PipeClient {
  import opened Common
  import opened Text
  import opened ConfigResolver

  /** What one pass of the retry loop meets. */
  datatype Attempt =
    | ConnectFailed                 // CreateFile raised pywintypes.error
    | WriteFailed                   // WriteFile raised pywintypes.error
    | Exchanged(closeFailed: bool)  // the message was written; read errors are swallowed;
                                    // CloseHandle may still raise pywintypes.error

  /** The attempt reaches `break`. */
  predicate Breaks(a: Attempt) {
    a.Exchanged? && !a.closeFailed
  }

  /** What `send_to_pipe` did: connection attempts, messages written, and whether it reached `break`. */
  datatype SendReport = SendReport(attempts: nat, writes: nat, delivered: bool)

  /** Number of the first `n` attempts that wrote the message. */
  function Writes(outcome: nat -> Attempt, n: nat): nat
    decreases n
  {
    if n == 0 then 0 else Writes(outcome, n - 1) + (if outcome(n - 1).Exchanged? then 1 else 0)
  }

  /** `range`-like bound: a non-positive `retries` makes no attempt. */
  function Bound(retries: int): nat {
    if retries < 0 then 0 else retries
  }

  /**
   * The behaviour `send_to_pipe` promises: at most `retries` attempts, no
   * attempt before the last one reached `break`, it stops at the first that
   * does, and it gives up only after all `retries` attempts failed.
   */
  ghost predicate IsSendReport(r: SendReport, retries: int, outcome: nat -> Attempt) {
    && r.attempts <= Bound(retries)
    && (forall j: nat :: j + 1 < r.attempts ==> !Breaks(outcome(j)))
    && (r.delivered <==> r.attempts > 0 && Breaks(outcome(r.attempts - 1)))
    && (!r.delivered ==> r.attempts == Bound(retries))
    && r.writes == Writes(outcome, r.attempts)
  }

  /** `send_to_pipe(data, retries)`; exhausting the retries only logs and returns normally. */
  method SendToPipe(retries: int, outcome: nat -> Attempt) returns (r: SendReport)
    ensures IsSendReport(r, retries, outcome)
  {
    var attempt: nat := 0;
    var writes: nat := 0;
    while attempt < retries
      invariant attempt <= Bound(retries)
      invariant forall j: nat :: j < attempt ==> !Breaks(outcome(j))
      invariant writes == Writes(outcome, attempt)
    {
      match outcome(attempt)
      case ConnectFailed =>
        attempt := attempt + 1;
      case WriteFailed =>
        attempt := attempt + 1;
      case Exchanged(closeFailed) =>
        writes := writes + 1;
        if !closeFailed {
          return SendReport(attempt + 1, writes, true);
        }
        attempt := attempt + 1;
    }
    return SendReport(attempt, writes, false);
  }

  /** The retry loop's behaviour is determined by the attempts' outcomes. */
  lemma SendReportUnique(r1: SendReport, r2: SendReport, retries: int, outcome: nat -> Attempt)
    requires IsSendReport(r1, retries, outcome) && IsSendReport(r2, retries, outcome)
    ensures r1 == r2
  {
  }

  /** Two failed connections then a clean exchange: the request is written exactly once. */
  lemma DeliveredOnceAfterTwoFailures(r: SendReport, outcome: nat -> Attempt)
    requires outcome(0) == ConnectFailed && outcome(1) == ConnectFailed && outcome(2) == Exchanged(false)
    requires IsSendReport(r, 3, outcome)
    ensures r.delivered && r.attempts == 3 && r.writes == 1
  {
    assert !Breaks(outcome(0)) && !Breaks(outcome(1));
  }

  /**
   * A pywintypes.error from CloseHandle after a successful write counts as a
   * failed attempt, so the same message is written again.
   */
  lemma CloseFailureWritesAgain(r: SendReport, retries: int, outcome: nat -> Attempt)
    requires retries >= 2
    requires outcome(0) == Exchanged(true) && outcome(1) == Exchanged(false)
    requires IsSendReport(r, retries, outcome)
    ensures r.delivered && r.attempts == 2 && r.writes == 2
  {
    assert !Breaks(outcome(0));
  }

  // ---------------------------------------------------------------------------
  // main

  /** The parsed command line: `--config`, `--listvoices`, `--preview`, `--style`, `--styledegree`. */
  datatype Args = Args(config: string, listVoices: bool, preview: bool, style: string, styleDegree: Option<real>)

  /** `{"args": ..., "config": ..., "clipboard_text": ...}`. */
  datatype Payload = Payload(args: Args, config: Config, clipboardText: string)

  /** `main` either exits with status 1 before sending, or sends one payload. */
  datatype MainOutcome = ExitFailure | Sent(payload: Payload, report: SendReport)

  /**
   * `get_clipboard_text`: the clipboard, or the empty string when reading it
   * raised a `PyperclipException`.
   */
  function ClipboardText(paste: Option<string>): (r: string)
    ensures paste.Some? ==> r == paste.value
    ensures paste.None? ==> r == ""
  {
    if paste.Some? then paste.value else ""
  }

  /**
   * What `main` does after `load_config`: the overrides of an existing
   * `--config` file, then the required-field and credentials-file checks
   * once more; `None` when it exits with status 1.
   */
  function Recheck(loaded: Loaded, configPath: string, cliSettings: IniFile): Option<Config> {
    if loaded.result.Err? then None
    else
      var useOverrides := configPath != "" && configPath in loaded.files;
      if useOverrides && cliSettings.Malformed? then None
      else
        var overrides := if cliSettings.Parsed? && cliSettings.overrides.Some? then OverrideMap(cliSettings.overrides.value) else map[];
        var config := if useOverrides then Update(loaded.result.value, overrides) else loaded.result.value;
        if Validate(config, loaded.files).Err? then None else Some(config)
  }

  /** The configuration `main` sends, or `None` when it exits with status 1. */
  function MainGate(env: ClientEnv, configPath: string, cliSettings: IniFile): Option<Config> {
    Recheck(LoadConfigSpec(env), configPath, cliSettings)
  }

  /** `main()` from the point the command line is parsed. */
  method ClientMain(env: ClientEnv, args: Args, cliSettings: IniFile, paste: Option<string>, outcome: nat -> Attempt)
    returns (m: MainOutcome)
    // `--config` naming the start folder's `settings.cfg` reads the file `load_config` read
    requires args.config == Render(Child(env.Start(), "settings.cfg")) ==> cliSettings == env.settings
    ensures m.ExitFailure? <==> MainGate(env, args.config, cliSettings).None?
    ensures m.Sent? ==> m.payload == Payload(args, MainGate(env, args.config, cliSettings).value, ClipboardText(paste))
    ensures m.Sent? ==> IsSendReport(m.report, 3, outcome)
    ensures m.Sent? ==>
      && LoadConfigSpec(env).result.Ok?
      && Complete(m.payload.config)
      && Lookup(m.payload.config, "GOOGLE_CREDS_PATH").value in LoadConfigSpec(env).files
  {
    var loaded := LoadConfig(env);
    assert MainGate(env, args.config, cliSettings) == Recheck(loaded, args.config, cliSettings);
    if loaded.result.Err? {
      return ExitFailure;
    }
    var config := loaded.result.value;
    var configPath := args.config;
    if configPath != "" && configPath in loaded.files {
      var overrides := LoadStandardConfig(cliSettings);
      if overrides.Err? {
        return ExitFailure;
      }
      config := Update(config, overrides.value);
    }
    if !Complete(config) {
      return ExitFailure;
    }
    if Lookup(config, "GOOGLE_CREDS_PATH").value !in loaded.files {
      return ExitFailure;
    }
    var clipboardText := ClipboardText(paste);
    var dataToSend := Payload(args, config, clipboardText);
    var report := SendToPipe(3, outcome);
    return Sent(dataToSend, report);
  }

  /**
   * The second check in `main` is not redundant: an override file that
   * blanks a required field stops a send that `load_config` alone allowed.
   */
  lemma MainRecheckCatchesBlankedField(env: ClientEnv, configPath: string)
    requires LoadConfigSpec(env).result.Ok?
    requires configPath != "" && configPath in LoadConfigSpec(env).files
    ensures MainGate(env, configPath, Parsed(Some([("microsoft_region", "")])) ) == None
  {
    BlankedFieldFailsRecheck(LoadConfigSpec(env), configPath);
  }

  /** Blanking `microsoft_region` fails the re-check of whatever `load_config` returned. */
  lemma BlankedFieldFailsRecheck(loaded: Loaded, configPath: string)
    requires loaded.result.Ok?
    requires configPath != "" && configPath in loaded.files
    ensures Recheck(loaded, configPath, Parsed(Some([("microsoft_region", "")]))) == None
  {
    SingleOverride("microsoft_region", "");
    assert Upper("microsoft_region") == "MICROSOFT_REGION";
    var config := Update(loaded.result.value, map["MICROSOFT_REGION" := ""]);
    assert Lookup(config, "MICROSOFT_REGION") == Some("");
  }
}
