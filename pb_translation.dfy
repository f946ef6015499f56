/**
 * `translate_clipboard` of the stand-alone clipboard tool: the arguments it
 * builds for the `translate` package's `Translator`, from a provider name
 * of the form `<Name>Provider` and the `[translate]` section.
 *
 * The clipboard (`pyperclip.paste()`) and the translator are inputs; `None`
 * stands for an exception either raised. Every error is logged and
 * swallowed, so the operation then yields `None`.
 */
module PbTranslation {
  import opened Common
  import opened Text
  import opened Ini

  /** The keyword arguments of the `Translator(...)` call. */
  datatype TranslateCall = TranslateCall(
    toLang: string,
    fromLang: string,
    provider: string,
    secretAccessKey: Option<string>,
    email: Option<string>,
    region: Option<string>,
    pro: Option<bool>,
    baseUrl: Option<string>)

  /** `provider.replace("Provider", "").lower()`. */
  function Alias(provider: string): string {
    Lower(ReplaceAll(provider, "Provider", ""))
  }

  /** The option holding the provider's secret key. */
  function KeyOption(provider: string): string {
    Alias(provider) + "provider_secret_key"
  }

  /** `None if v == "" else v`, for a value that may not have been read. */
  function NoneIfEmpty(v: Option<string>): (r: Option<string>)
    ensures r.Some? <==> v.Some? && v.value != ""
    ensures r.Some? ==> r == v
  {
    if v == Some("") then None else v
  }

  /** The arguments of the `Translator(...)` call, or `None` when reading the configuration raised. */
  function BuildTranslator(cfg: Config): (r: Option<TranslateCall>)
    ensures r.Some? <==>
      && Get(cfg, "translate", "provider").Some?
      && var p := Get(cfg, "translate", "provider").value;
      && Get(cfg, "translate", KeyOption(p)).Some?
      && (p == "MyMemoryProvider" ==> Get(cfg, "translate", "email").Some?)
      && (p == "MicrosoftProvider" ==> Get(cfg, "translate", "region").Some?)
      && (p == "DeeplProvider" ==> GetBoolean(cfg, "translate", "deepl_pro").Some?)
      && (p == "LibreProvider" ==> Get(cfg, "translate", "url").Some?)
      && Get(cfg, "translate", "endLang").Some?
      && Get(cfg, "translate", "startLang").Some?
    ensures r.Some? ==>
      var p := Get(cfg, "translate", "provider").value;
      && r.value.provider == Alias(p)
      && r.value.toLang == Get(cfg, "translate", "endLang").value
      && r.value.fromLang == Get(cfg, "translate", "startLang").value
      && (r.value.secretAccessKey.None? <==> Get(cfg, "translate", KeyOption(p)) == Some(""))
      && (r.value.secretAccessKey.Some? ==> r.value.secretAccessKey == Get(cfg, "translate", KeyOption(p)))
      && r.value.email == (if p == "MyMemoryProvider" then NoneIfEmpty(Get(cfg, "translate", "email")) else None)
      && r.value.region == (if p == "MicrosoftProvider" then NoneIfEmpty(Get(cfg, "translate", "region")) else None)
      && (r.value.pro.Some? <==> p == "DeeplProvider")
      && (r.value.pro.Some? ==> r.value.pro == GetBoolean(cfg, "translate", "deepl_pro"))
      && r.value.baseUrl == (if p == "LibreProvider" then NoneIfEmpty(Get(cfg, "translate", "url")) else None)
  {
    var provider :- Get(cfg, "translate", "provider");
    var alias := Alias(provider);
    var key :- Get(cfg, "translate", alias + "provider_secret_key");
    var email :- GetIf(provider == "MyMemoryProvider", cfg, "translate", "email");
    var region :- GetIf(provider == "MicrosoftProvider", cfg, "translate", "region");
    var pro :- GetBooleanIf(provider == "DeeplProvider", cfg, "translate", "deepl_pro");
    var url :- GetIf(provider == "LibreProvider", cfg, "translate", "url");
    var toLang :- Get(cfg, "translate", "endLang");
    var fromLang :- Get(cfg, "translate", "startLang");
    Some(TranslateCall(toLang, fromLang, alias, NoneIfEmpty(Some(key)), NoneIfEmpty(email),
                       NoneIfEmpty(region), pro, NoneIfEmpty(url)))
  }

  /**
   * For a provider named `<Name>Provider` whose `<Name>` holds no capital
   * `P`, the alias is `<Name>` lower-cased, so the key is read from
   * `<name>provider_secret_key`.
   */
  lemma {:induction false} AliasOfProviderName(name: string)
    requires 'P' !in name
    ensures Alias(name + "Provider") == Lower(name)
    ensures KeyOption(name + "Provider") == Lower(name) + "provider_secret_key"
  {
    ReplaceAllSkipsFree(name, "Provider", "Provider", "");
    var p: string := "Provider";
    assert p[..|p|] == p && p[|p|..] == [];
    assert ReplaceAll(p, p, "") == "" + ReplaceAll([], p, "");
    assert name + "" == name;
  }

  /** `translate_clipboard()`: the translation of the clipboard, or `None` when anything raised. */
  function PbTranslate(cfg: Config, paste: Option<string>, translate: (TranslateCall, string) -> Option<string>)
    : (r: Option<string>)
    ensures BuildTranslator(cfg).None? || paste.None? ==> r.None?
    ensures BuildTranslator(cfg).Some? && paste.Some? ==> r == translate(BuildTranslator(cfg).value, paste.value)
  {
    var call :- BuildTranslator(cfg);
    var clipboard :- paste;
    translate(call, clipboard)
  }
}
