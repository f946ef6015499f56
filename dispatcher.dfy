/**
 * The server side of one request: `MainWindow.handle_message`, which turns
 * the received configuration and clipboard text into speech, a clipboard
 * update and a staged voice list, and the `finally` block of
 * `PipeServerThread.run`, which writes a staged voice list back to the
 * client and empties the slot.
 *
 * The foreign calls (`utils.get_paths`, `utils.init`, `tts_utils.init`,
 * `tts_utils.speak`, the translator, `pyperclip.copy`) are fields of
 * `ServerEnv`; `None` or `false` stands for the call raising. Speaking and copying to the
 * clipboard are recorded in the returned `Decision`.
 */
module Dispatcher {
  import opened Common
  import opened Text
  import opened Ini
  import opened ServerTranslation

  /** One entry of the voice list `tts_utils` collects. */
  type Voice = string

  /** The decoded message: `args['listvoices']`, `config` and `clipboard_text`. */
  datatype Request = Request(listVoices: bool, config: Config, clipboardText: string)

  /** What the foreign calls of one `handle_message` return. */
  datatype ServerEnv = ServerEnv(
    getPaths: Option<string> -> Option<(string, string)>,  // utils.get_paths
    initOk: bool,                                          // utils.init and tts_utils.init return
    translate: (TranslatorCall, string) -> Option<string>, // the translator's translate
    speakOk: bool,                                         // tts_utils.speak returns
    ttsVoices: Option<seq<Voice>>,                         // tts_utils.voices afterwards
    copyOk: bool)                                          // pyperclip.copy returns

  /** The effects of one `handle_message`. */
  datatype Decision = Decision(
    spoken: Option<Option<string>>,  // the text tts_utils.speak was called with
    staged: Option<seq<Voice>>,      // the list put into the voices slot
    copied: Option<string>,          // the text pyperclip.copy received
    completed: bool)                 // the last-run information was updated

  const NoEffect: Decision := Decision(None, None, None, false)

  /** A Python list is truthy when it is not `None` and not empty. */
  predicate Truthy(v: Option<seq<Voice>>) {
    v.Some? && |v.value| > 0
  }

  /**
   * `config['App']['config_path']` and `config['App']['audio_files_path']`
   * set, the section created first when missing.
   */
  function WithAppPaths(cfg: Config, configPath: string, audioPath: string): (r: Config)
    ensures Get(r, "App", "config_path") == Some(configPath)
    ensures Get(r, "App", "audio_files_path") == Some(audioPath)
    ensures forall s :: s in cfg && s != "App" ==> s in r && r[s] == cfg[s]
    ensures forall o :: "App" in cfg && o in cfg["App"] && o != "config_path" && o != "audio_files_path" ==>
      o in r["App"] && r["App"][o] == cfg["App"][o]
    ensures r.Keys == cfg.Keys + {"App"}
    ensures r["App"].Keys == (if "App" in cfg then cfg["App"].Keys else {}) + {"config_path", "audio_files_path"}
  {
    var app := if "App" in cfg then cfg["App"] else map[];
    assert Lower("config_path") == "config_path" && Lower("audio_files_path") == "audio_files_path";
    cfg["App" := app["config_path" := configPath]["audio_files_path" := audioPath]]
  }

  /** The statements of `handle_message` that store the two paths in the `App` section. */
  method SetAppPaths(cfg: Config, configPath: string, audioPath: string) returns (config: Config)
    ensures config == WithAppPaths(cfg, configPath, audioPath)
  {
    config := cfg;
    if "App" !in config {
      config := config["App" := map[]];
    }
    config := config["App" := config["App"]["config_path" := configPath]];
    config := config["App" := config["App"]["audio_files_path" := audioPath]];
  }

  /** What `handle_message` does with a message, stopping at the first exception. */
  function Decide(req: Option<Request>, env: ServerEnv): Decision {
    if req.None? then NoEffect
    else
      var r := req.value;
      var paths := env.getPaths(Get(r.config, "App", "config_path"));
      if paths.None? then NoEffect
      else Process(r.clipboardText, WithAppPaths(r.config, paths.value.0, paths.value.1), env)
  }

  /** The rest of `handle_message`, once the `App` paths are stored in `cfg`. */
  function Process(clipboardText: string, cfg: Config, env: ServerEnv): Decision {
    var noTranslate := GetBoolean(cfg, "translate", "noTranslate");
    if !env.initOk || noTranslate.None? then NoEffect
    else
      var text := if noTranslate.value then Some(clipboardText) else ServerTranslate(clipboardText, cfg, env.translate);
      var bypass := GetBooleanOr(cfg, "TTS", "bypass_tts", false);
      if bypass.None? then NoEffect
      else
        var spoken := if bypass.value then None else Some(text);
        if !bypass.value && !env.speakOk then Decision(spoken, None, None, false)
        else Finish(spoken, text, cfg, env)
  }

  /** The end of `handle_message`, after speech: staging the voices, `replacepb`, the last-run entry. */
  function Finish(spoken: Option<Option<string>>, text: Option<string>, cfg: Config, env: ServerEnv): Decision {
    var staged := if Truthy(env.ttsVoices) then env.ttsVoices else None;
    var replace := GetBoolean(cfg, "translate", "replacepb");
    if replace.None? then Decision(spoken, staged, None, false)
    else
      var copied := if replace.value && text.Some? then text else None;
      Decision(spoken, staged, copied, copied.None? || env.copyOk)
  }

  /**
   * The request thread: its voices slot, and whether its `while True` loop
   * is still serving connections.
   */
  class PipeServerThread {
    var voices: Option<seq<Voice>>
    var serving: bool

    constructor ()
      ensures voices.None? && serving
    {
      voices := None;
      serving := true;
    }

    /**
     * One pass of the `finally` flush: with `get_voices` set and a truthy
     * slot, the list is written and the slot emptied; a failing `WriteFile`
     * there is outside any `try`, so it leaves the slot as it is and ends
     * the thread's loop. With `get_voices` set and an empty slot the loop
     * goes on waiting; without `get_voices` nothing happens.
     */
    method FlushStep(getVoices: bool, writeOk: bool) returns (f: Flush)
      modifies this
      ensures getVoices && Truthy(old(voices)) && writeOk ==>
        f == Wrote(old(voices).value) && voices.None? && serving == old(serving)
      ensures getVoices && Truthy(old(voices)) && !writeOk ==>
        f == WriteFailed && voices == old(voices) && !serving
      ensures getVoices && !Truthy(old(voices)) ==> f == Waiting && voices == old(voices) && serving == old(serving)
      ensures !getVoices ==> f == Skipped && voices == old(voices) && serving == old(serving)
    {
      if !getVoices {
        return Skipped;
      }
      if voices.Some? && |voices.value| > 0 {
        if !writeOk {
          serving := false;
          return WriteFailed;
        }
        f := Wrote(voices.value);
        voices := None;
      } else {
        f := Waiting;
      }
    }
  }

  /** What one pass of the flush does with the pipe. */
  datatype Flush = Wrote(written: seq<Voice>) | WriteFailed | Waiting | Skipped

  /** The tray application's window: the request thread and the last-run menu entry. */
  class MainWindow {
    const pipeThread: PipeServerThread
    var lastRunInfo: Option<string>

    constructor ()
      ensures fresh(pipeThread) && pipeThread.voices.None? && lastRunInfo.None?
    {
      pipeThread := new PipeServerThread();
      lastRunInfo := None;
    }

    /** `handle_message(message)`; `now` is the formatted current time. */
    method HandleMessage(req: Option<Request>, env: ServerEnv, now: string) returns (d: Decision)
      modifies this, pipeThread
      ensures d == Decide(req, env)
      ensures pipeThread.voices == if d.staged.Some? then d.staged else old(pipeThread.voices)
      ensures pipeThread.serving == old(pipeThread.serving)
      ensures lastRunInfo == if d.completed then Some(now) else old(lastRunInfo)
    {
      d := NoEffect;
      if req.None? {
        return;
      }
      var r := req.value;
      var paths := env.getPaths(Get(r.config, "App", "config_path"));
      if paths.None? {
        return;
      }
      var config := SetAppPaths(r.config, paths.value.0, paths.value.1);
      d := ProcessMessage(r.clipboardText, config, env, now);
    }

    /** The steps of `handle_message` after the `App` paths are stored. */
    method ProcessMessage(clipboardText: string, config: Config, env: ServerEnv, now: string) returns (d: Decision)
      modifies this, pipeThread
      ensures d == Process(clipboardText, config, env)
      ensures pipeThread.voices == if d.staged.Some? then d.staged else old(pipeThread.voices)
      ensures pipeThread.serving == old(pipeThread.serving)
      ensures lastRunInfo == if d.completed then Some(now) else old(lastRunInfo)
    {
      d := NoEffect;
      if !env.initOk {
        return;
      }
      var noTranslate := GetBoolean(config, "translate", "noTranslate");
      if noTranslate.None? {
        return;
      }
      var text: Option<string>;
      if noTranslate.value {
        text := Some(clipboardText);
      } else {
        text := ServerTranslate(clipboardText, config, env.translate);
      }
      var bypass := GetBooleanOr(config, "TTS", "bypass_tts", false);
      if bypass.None? {
        return;
      }
      if !bypass.value {
        d := d.(spoken := Some(text));
        if !env.speakOk {
          return;
        }
      }
      d := FinishMessage(d.spoken, text, config, env, now);
    }

    /** The steps of `handle_message` after speech. */
    method FinishMessage(spoken: Option<Option<string>>, text: Option<string>, config: Config, env: ServerEnv, now: string)
      returns (d: Decision)
      modifies this, pipeThread
      ensures d == Finish(spoken, text, config, env)
      ensures pipeThread.voices == if d.staged.Some? then d.staged else old(pipeThread.voices)
      ensures pipeThread.serving == old(pipeThread.serving)
      ensures lastRunInfo == if d.completed then Some(now) else old(lastRunInfo)
    {
      d := Decision(spoken, None, None, false);
      if env.ttsVoices.Some? && |env.ttsVoices.value| > 0 {
        pipeThread.voices := env.ttsVoices;
        d := d.(staged := env.ttsVoices);
      }
      var replace := GetBoolean(config, "translate", "replacepb");
      if replace.None? {
        return;
      }
      if replace.value && text.Some? {
        d := d.(copied := text);
        if !env.copyOk {
          return;
        }
      }
      lastRunInfo := Some(now);
      d := d.(completed := true);
    }

    /**
     * One connection: the message is handled, then the flush runs with
     * `get_voices` taken from the request's `listvoices`. The slot it
     * flushes is the list just staged or, when none was, whatever an
     * earlier request left there; `writeOk` is whether `WriteFile` returns.
     */
    method ServeConnection(req: Option<Request>, env: ServerEnv, now: string, writeOk: bool) returns (d: Decision, f: Flush)
      modifies this, pipeThread
      ensures d == Decide(req, env)
      ensures lastRunInfo == if d.completed then Some(now) else old(lastRunInfo)
      ensures var listVoices := req.Some? && req.value.listVoices;
        var slot := if d.staged.Some? then d.staged else old(pipeThread.voices);
        && (!listVoices ==>
              f == Skipped && pipeThread.voices == slot && pipeThread.serving == old(pipeThread.serving))
        && (listVoices && Truthy(slot) && writeOk ==>
              f == Wrote(slot.value) && pipeThread.voices.None? && pipeThread.serving == old(pipeThread.serving))
        && (listVoices && Truthy(slot) && !writeOk ==>
              f == WriteFailed && pipeThread.voices == slot && !pipeThread.serving)
        && (listVoices && !Truthy(slot) ==>
              f == Waiting && pipeThread.voices == slot && pipeThread.serving == old(pipeThread.serving))
    {
      d := HandleMessage(req, env, now);
      var getVoices := req.Some? && req.value.listVoices;
      f := pipeThread.FlushStep(getVoices, writeOk);
    }
  }

  /**
   * `handle_message` runs to the end exactly when the message decodes,
   * `get_paths` and the initialisations return, `noTranslate` and
   * `replacepb` read as booleans, `bypass_tts` is missing or a boolean, and
   * speaking, when not bypassed, returns, and so does copying the text to
   * the clipboard when `replacepb` asks for it and there is a text.
   */
  lemma CompletedIff(req: Option<Request>, env: ServerEnv)
    ensures Decide(req, env).completed <==>
      && req.Some?
      && env.getPaths(Get(req.value.config, "App", "config_path")).Some?
      && env.initOk
      && var paths := env.getPaths(Get(req.value.config, "App", "config_path")).value;
      && var cfg := WithAppPaths(req.value.config, paths.0, paths.1);
      && GetBoolean(cfg, "translate", "noTranslate").Some?
      && GetBoolean(cfg, "translate", "replacepb").Some?
      && GetBooleanOr(cfg, "TTS", "bypass_tts", false).Some?
      && (GetBooleanOr(cfg, "TTS", "bypass_tts", false) == Some(false) ==> env.speakOk)
      && (GetBoolean(cfg, "translate", "replacepb") == Some(true)
          && (GetBoolean(cfg, "translate", "noTranslate") == Some(true)
              || ServerTranslate(req.value.clipboardText, cfg, env.translate).Some?)
          ==> env.copyOk)
  {
  }

  /** `bypass_tts` is missing or false, so `tts_utils.speak` is called. */
  predicate SpeechOn(cfg: Config) {
    Get(cfg, "TTS", "bypass_tts").None? || GetBoolean(cfg, "TTS", "bypass_tts") == Some(false)
  }

  /** `handle_message` gets past the initialisations and reads `noTranslate` and `bypass_tts`. */
  predicate ReachesSpeech(cfg: Config, env: ServerEnv) {
    && env.initOk
    && GetBoolean(cfg, "translate", "noTranslate").Some?
    && GetBooleanOr(cfg, "TTS", "bypass_tts", false).Some?
  }

  /** `handle_message` gets to the `tts_utils.voices` test: speech, when called, returned. */
  predicate ReachesStaging(cfg: Config, env: ServerEnv) {
    ReachesSpeech(cfg, env) && (SpeechOn(cfg) ==> env.speakOk)
  }

  /**
   * The decisions of a message: the text is the clipboard text under
   * `noTranslate` and the translation otherwise; it is spoken only when
   * `bypass_tts` is missing or false, and always then once the flags are
   * read; only a truthy voice list is staged, and always once speech
   * returned; it is copied back only under `replacepb` and when not `None`,
   * and always then once `replacepb` is read.
   */
  lemma DecisionsOfMessage(r: Request, env: ServerEnv, cp: string, ap: string)
    requires env.getPaths(Get(r.config, "App", "config_path")) == Some((cp, ap))
    ensures var cfg := WithAppPaths(r.config, cp, ap);
      var d := Decide(Some(r), env);
      var text := if GetBoolean(cfg, "translate", "noTranslate") == Some(true) then Some(r.clipboardText)
                  else ServerTranslate(r.clipboardText, cfg, env.translate);
      && (d.spoken.Some? ==> SpeechOn(cfg) && d.spoken.value == text)
      && (ReachesSpeech(cfg, env) ==> (d.spoken.Some? <==> SpeechOn(cfg)))
      && (d.staged.Some? ==> Truthy(env.ttsVoices) && d.staged == env.ttsVoices)
      && (ReachesStaging(cfg, env) ==> (d.staged.Some? <==> Truthy(env.ttsVoices)))
      && (d.copied.Some? ==> GetBoolean(cfg, "translate", "replacepb") == Some(true) && text.Some? && d.copied == text)
      && (ReachesStaging(cfg, env) && GetBoolean(cfg, "translate", "replacepb").Some? ==>
            (d.copied.Some? <==> GetBoolean(cfg, "translate", "replacepb") == Some(true) && text.Some?))
  {
    assert Decide(Some(r), env) == Process(r.clipboardText, WithAppPaths(r.config, cp, ap), env);
    ProcessDecisions(r.clipboardText, WithAppPaths(r.config, cp, ap), env);
  }

  /** `DecisionsOfMessage` once the `App` paths are stored. */
  lemma ProcessDecisions(clipboardText: string, cfg: Config, env: ServerEnv)
    ensures var d := Process(clipboardText, cfg, env);
      var text := if GetBoolean(cfg, "translate", "noTranslate") == Some(true) then Some(clipboardText)
                  else ServerTranslate(clipboardText, cfg, env.translate);
      && (d.spoken.Some? ==> SpeechOn(cfg) && d.spoken.value == text)
      && (ReachesSpeech(cfg, env) ==> (d.spoken.Some? <==> SpeechOn(cfg)))
      && (d.staged.Some? ==> Truthy(env.ttsVoices) && d.staged == env.ttsVoices)
      && (ReachesStaging(cfg, env) ==> (d.staged.Some? <==> Truthy(env.ttsVoices)))
      && (d.copied.Some? ==> GetBoolean(cfg, "translate", "replacepb") == Some(true) && text.Some? && d.copied == text)
      && (ReachesStaging(cfg, env) && GetBoolean(cfg, "translate", "replacepb").Some? ==>
            (d.copied.Some? <==> GetBoolean(cfg, "translate", "replacepb") == Some(true) && text.Some?))
  {
    var text := if GetBoolean(cfg, "translate", "noTranslate") == Some(true) then Some(clipboardText)
                else ServerTranslate(clipboardText, cfg, env.translate);
    if ReachesStaging(cfg, env) {
      var spoken := if SpeechOn(cfg) then Some(text) else None;
      assert Process(clipboardText, cfg, env) == Finish(spoken, text, cfg, env);
      FinishDecisions(spoken, text, cfg, env);
    }
  }

  /** After speech: only a truthy voice list is staged, and always; the text is copied exactly under `replacepb`. */
  lemma FinishDecisions(spoken: Option<Option<string>>, text: Option<string>, cfg: Config, env: ServerEnv)
    ensures var d := Finish(spoken, text, cfg, env);
      && d.spoken == spoken
      && (d.staged.Some? <==> Truthy(env.ttsVoices))
      && (d.staged.Some? ==> d.staged == env.ttsVoices)
      && (d.copied.Some? ==> GetBoolean(cfg, "translate", "replacepb") == Some(true) && text.Some? && d.copied == text)
      && (GetBoolean(cfg, "translate", "replacepb").Some? ==>
            (d.copied.Some? <==> GetBoolean(cfg, "translate", "replacepb") == Some(true) && text.Some?))
  {
  }

  /** Whatever message arrives, only a truthy voice list is ever staged, and it is `tts_utils.voices`. */
  lemma StagedListIsVoices(req: Option<Request>, env: ServerEnv)
    ensures Decide(req, env).staged.Some? ==> Truthy(env.ttsVoices) && Decide(req, env).staged == env.ttsVoices
  {
    if req.Some? {
      var paths := env.getPaths(Get(req.value.config, "App", "config_path"));
      if paths.Some? {
        DecisionsOfMessage(req.value, env, paths.value.0, paths.value.1);
      }
    }
  }

  /**
   * A `--listvoices` request that gets as far as the `tts_utils.voices`
   * test stages the truthy voice list, whether or not `replacepb` is then
   * read and the copy returns, so that the flush of `ServeConnection`
   * writes it back. Staging itself does not look at `listvoices`; the flag
   * is kept because only such a request has its flush write the list.
   */
  lemma ListVoicesAreReturned(r: Request, env: ServerEnv, cp: string, ap: string)
    requires r.listVoices && env.getPaths(Get(r.config, "App", "config_path")) == Some((cp, ap))
    requires ReachesStaging(WithAppPaths(r.config, cp, ap), env) && Truthy(env.ttsVoices)
    ensures Decide(Some(r), env).staged == env.ttsVoices
  {
    DecisionsOfMessage(r, env, cp, ap);
  }
}
