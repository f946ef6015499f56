/**
 * The server's `translate_clipboard`: choosing a translator class of the
 * `deep_translator` family from the `[translate]` section of the received
 * configuration, and the arguments its constructor receives.
 *
 * The translator object itself is foreign; it becomes the parameter
 * `translate`, whose `None` stands for an exception it raised. Every error
 * on the way (a missing option, a malformed `deepl_pro`, an unknown class
 * name) is logged and swallowed, so the whole operation yields `None`.
 */
module ServerTranslation {
  import opened Common
  import opened Ini

  /** The arguments one translator constructor receives; an argument it does not take is `None`. */
  datatype TranslatorCall = TranslatorCall(
    translator: string,           // the class name
    source: string,
    target: string,
    key: Option<string>,          // api_key, secret_key (Papago) or appkey (Baidu)
    email: Option<string>,
    region: Option<string>,
    useFreeApi: Option<bool>,
    customUrl: Option<string>,
    clientId: Option<string>,
    appid: Option<string>)

  /** The twelve class names the `match` recognises. */
  const KnownTranslators: set<string> := {
    "GoogleTranslator", "PonsTranslator", "LingueeTranslator", "MyMemoryTranslator",
    "YandexTranslator", "MicrosoftTranslator", "QcriTranslator", "DeeplTranslator",
    "LibreTranslator", "PapagoTranslator", "ChatGptTranslator", "BaiduTranslator"}

  /** The classes constructed with `source='auto'`. */
  const AutoSource: set<string> := {
    "GoogleTranslator", "PonsTranslator", "LingueeTranslator",
    "QcriTranslator", "PapagoTranslator", "ChatGptTranslator"}

  /** The classes whose constructor receives the secret key. */
  const KeyTaking: set<string> := {
    "YandexTranslator", "MicrosoftTranslator", "QcriTranslator", "DeeplTranslator",
    "LibreTranslator", "PapagoTranslator", "BaiduTranslator"}

  /** A constructor taking `source` and `target` only. */
  function Plain(translator: string, source: string, target: string): TranslatorCall {
    TranslatorCall(translator, source, target, None, None, None, None, None, None, None)
  }

  /**
   * The `match translator:` statement: the constructor call for a known class
   * name, reading `endLang` and, unless the source is fixed to `'auto'`,
   * `startLang`; `None` for an unknown name (which leaves the instance
   * unbound) or a missing option.
   */
  function Construct(cfg: Config, translator: string, key: Option<string>, email: Option<string>,
                     region: Option<string>, pro: Option<bool>, url: Option<string>,
                     clientId: Option<string>, appid: Option<string>): (r: Option<TranslatorCall>)
    ensures r.Some? ==> translator in KnownTranslators && r.value.translator == translator
    ensures r.Some? ==> Get(cfg, "translate", "endLang") == Some(r.value.target)
    ensures r.Some? && translator in AutoSource ==> r.value.source == "auto"
    ensures r.Some? && translator !in AutoSource ==> Get(cfg, "translate", "startLang") == Some(r.value.source)
    ensures r.Some? ==> r.value.key == if translator in KeyTaking then key else None
    ensures r.Some? && translator == "DeeplTranslator" ==> pro.Some? && r.value.useFreeApi == Some(!pro.value)
    ensures r.Some? && translator != "DeeplTranslator" ==> r.value.useFreeApi.None?
    ensures r.Some? ==> r.value.customUrl == if translator == "LibreTranslator" then url else None
    ensures r.Some? ==> r.value.email == if translator == "MyMemoryTranslator" then email else None
    ensures r.Some? ==> r.value.region == if translator == "MicrosoftTranslator" then region else None
    ensures r.Some? ==> r.value.clientId == if translator == "PapagoTranslator" then clientId else None
    ensures r.Some? ==> r.value.appid == if translator == "BaiduTranslator" then appid else None
  {
    if translator !in KnownTranslators then None
    else
      var target :- Get(cfg, "translate", "endLang");
      var source :- if translator in AutoSource then Some("auto") else Get(cfg, "translate", "startLang");
      var call := Plain(translator, source, target);
      match translator
      case "MyMemoryTranslator" => Some(call.(email := email))
      case "YandexTranslator" => Some(call.(key := key))
      case "MicrosoftTranslator" => Some(call.(key := key, region := region))
      case "QcriTranslator" => Some(call.(key := key))
      case "DeeplTranslator" =>
        if pro.Some? then Some(call.(key := key, useFreeApi := Some(!pro.value))) else None
      case "LibreTranslator" => Some(call.(key := key, customUrl := url))
      case "PapagoTranslator" => Some(call.(clientId := clientId, key := key))
      case "BaiduTranslator" => Some(call.(appid := appid, key := key))
      case _ => Some(call)
  }

  /**
   * Everything `translate_clipboard` reads before it calls the translator:
   * the provider name, then the options each provider needs, then the
   * constructor, then `startLang` once more for the log line.
   */
  function SelectTranslator(cfg: Config): (r: Option<TranslatorCall>)
    ensures r.Some? ==> Get(cfg, "translate", "provider") == Some(r.value.translator)
    ensures r.Some? ==> r.value.translator in KnownTranslators
    ensures r.Some? ==> Get(cfg, "translate", "endLang") == Some(r.value.target)
    ensures r.Some? ==> Get(cfg, "translate", "startLang").Some?
    ensures r.Some? ==>
      (r.value.source == if r.value.translator in AutoSource then "auto" else Get(cfg, "translate", "startLang").value)
    ensures r.Some? ==> (r.value.key.Some? <==> r.value.translator in KeyTaking)
    ensures r.Some? && r.value.key.Some? ==>
      Get(cfg, "translate", r.value.translator + "_secret_key") == r.value.key
    ensures r.Some? ==> (r.value.useFreeApi.Some? <==> r.value.translator == "DeeplTranslator")
    ensures r.Some? && r.value.useFreeApi.Some? ==>
      GetBoolean(cfg, "translate", "deepl_pro") == Some(!r.value.useFreeApi.value)
    ensures r.Some? ==> r.value.customUrl.None?
    ensures r.Some? ==>
      r.value.email == (if r.value.translator == "MyMemoryTranslator" then Get(cfg, "translate", "email") else None)
    ensures r.Some? ==>
      r.value.region == (if r.value.translator == "MicrosoftTranslator" then Get(cfg, "translate", "region") else None)
    ensures r.Some? ==>
      r.value.clientId == (if r.value.translator == "PapagoTranslator" then Get(cfg, "translate", "papagotranslator_client_id") else None)
    ensures r.Some? ==>
      r.value.appid == (if r.value.translator == "BaiduTranslator" then Get(cfg, "translate", "baidutranslator_appid") else None)
  {
    var translator :- Get(cfg, "translate", "provider");
    var key :- GetIf(translator != "GoogleTranslator", cfg, "translate", translator + "_secret_key");
    var email :- GetIf(translator == "MyMemoryTranslator", cfg, "translate", "email");
    var region :- GetIf(translator == "MicrosoftTranslator", cfg, "translate", "region");
    var pro :- GetBooleanIf(translator == "DeeplTranslator", cfg, "translate", "deepl_pro");
    var url :- GetIf(translator == "LibreProvider", cfg, "translate", "url");
    var clientId :- GetIf(translator == "PapagoTranslator", cfg, "translate", "papagotranslator_client_id");
    var appid :- GetIf(translator == "BaiduTranslator", cfg, "translate", "baidutranslator_appid");
    var call :- Construct(cfg, translator, key, email, region, pro, url, clientId, appid);
    var startLang :- Get(cfg, "translate", "startLang");
    Some(call)
  }

  /** The options of `[translate]` that must be present for the given provider. */
  function RequiredOptions(translator: string): set<string> {
    {"provider", "endLang", "startLang"}
    + (if translator != "GoogleTranslator" then {translator + "_secret_key"} else {})
    + (if translator == "MyMemoryTranslator" then {"email"} else {})
    + (if translator == "MicrosoftTranslator" then {"region"} else {})
    + (if translator == "DeeplTranslator" then {"deepl_pro"} else {})
    + (if translator == "PapagoTranslator" then {"papagotranslator_client_id"} else {})
    + (if translator == "BaiduTranslator" then {"baidutranslator_appid"} else {})
  }

  /** Every required option of `[translate]` is present. */
  predicate HasOptions(cfg: Config, translator: string) {
    forall o :: o in RequiredOptions(translator) ==> Get(cfg, "translate", o).Some?
  }

  /**
   * With the provider naming a known class, every option that class needs
   * present and a DeepL `deepl_pro` in a spelling `getboolean` accepts, a
   * constructor call comes out.
   */
  lemma SelectTranslatorSucceeds(cfg: Config, t: string)
    requires Get(cfg, "translate", "provider") == Some(t)
    requires t in KnownTranslators && HasOptions(cfg, t)
    requires t == "DeeplTranslator" ==> GetBoolean(cfg, "translate", "deepl_pro").Some?
    ensures SelectTranslator(cfg).Some?
  {
    assert "endLang" in RequiredOptions(t) && "startLang" in RequiredOptions(t);
    var key := GetIf(t != "GoogleTranslator", cfg, "translate", t + "_secret_key");
    if t != "GoogleTranslator" {
      assert t + "_secret_key" in RequiredOptions(t);
    }
    assert key.Some?;
    var email := GetIf(t == "MyMemoryTranslator", cfg, "translate", "email");
    if t == "MyMemoryTranslator" { assert "email" in RequiredOptions(t); }
    assert email.Some?;
    var region := GetIf(t == "MicrosoftTranslator", cfg, "translate", "region");
    if t == "MicrosoftTranslator" { assert "region" in RequiredOptions(t); }
    assert region.Some?;
    var pro := GetBooleanIf(t == "DeeplTranslator", cfg, "translate", "deepl_pro");
    assert pro.Some?;
    var url := GetIf(t == "LibreProvider", cfg, "translate", "url");
    assert url == Some(None);
    var clientId := GetIf(t == "PapagoTranslator", cfg, "translate", "papagotranslator_client_id");
    if t == "PapagoTranslator" { assert "papagotranslator_client_id" in RequiredOptions(t); }
    assert clientId.Some?;
    var appid := GetIf(t == "BaiduTranslator", cfg, "translate", "baidutranslator_appid");
    if t == "BaiduTranslator" { assert "baidutranslator_appid" in RequiredOptions(t); }
    assert appid.Some?;
    ConstructSucceeds(cfg, t, key.value, email.value, region.value, pro.value, url.value, clientId.value, appid.value);
  }

  /** The `match` yields a call for a known class once `endLang`, `startLang` and a DeepL `pro` flag are at hand. */
  lemma ConstructSucceeds(cfg: Config, t: string, key: Option<string>, email: Option<string>,
                          region: Option<string>, pro: Option<bool>, url: Option<string>,
                          clientId: Option<string>, appid: Option<string>)
    requires t in KnownTranslators
    requires Get(cfg, "translate", "endLang").Some? && Get(cfg, "translate", "startLang").Some?
    requires t == "DeeplTranslator" ==> pro.Some?
    ensures Construct(cfg, t, key, email, region, pro, url, clientId, appid).Some?
  {
  }

  /** Conversely, a constructor call comes out only under those conditions. */
  lemma SelectTranslatorNeeds(cfg: Config)
    requires SelectTranslator(cfg).Some?
    ensures var t := SelectTranslator(cfg).value.translator;
      && HasOptions(cfg, t)
      && (t == "DeeplTranslator" ==> GetBoolean(cfg, "translate", "deepl_pro").Some?)
  {
    var t := SelectTranslator(cfg).value.translator;
    assert Get(cfg, "translate", "provider") == Some(t);
    assert GetIf(t != "GoogleTranslator", cfg, "translate", t + "_secret_key").Some?;
    assert GetIf(t == "MyMemoryTranslator", cfg, "translate", "email").Some?;
    assert GetIf(t == "MicrosoftTranslator", cfg, "translate", "region").Some?;
    assert GetBooleanIf(t == "DeeplTranslator", cfg, "translate", "deepl_pro").Some?;
    assert GetIf(t == "PapagoTranslator", cfg, "translate", "papagotranslator_client_id").Some?;
    assert GetIf(t == "BaiduTranslator", cfg, "translate", "baidutranslator_appid").Some?;
    forall o | o in RequiredOptions(t)
      ensures Get(cfg, "translate", o).Some?
    {
    }
  }

  /** Every provider but Google needs its `<provider>_secret_key`, even one that never uses it. */
  lemma MissingKeyFails(cfg: Config)
    requires Get(cfg, "translate", "provider").Some?
    requires Get(cfg, "translate", "provider").value != "GoogleTranslator"
    requires Get(cfg, "translate", Get(cfg, "translate", "provider").value + "_secret_key").None?
    ensures SelectTranslator(cfg).None?
  {
  }

  /** `translate_clipboard(text, config)`: the translation, or `None` when anything raised. */
  function ServerTranslate(text: string, cfg: Config, translate: (TranslatorCall, string) -> Option<string>)
    : (r: Option<string>)
    ensures SelectTranslator(cfg).None? ==> r.None?
    ensures SelectTranslator(cfg).Some? ==> r == translate(SelectTranslator(cfg).value, text)
  {
    var call :- SelectTranslator(cfg);
    translate(call, text)
  }
}
