/**
 * The parts of Python's `configparser.ConfigParser` that the core reads: a
 * section -> option -> value mapping whose option names are stored lower-cased
 * (the parser's `optionxform`), so that a lookup lower-cases the requested
 * option name before it looks it up.
 */
module Ini {
  import opened Common
  import opened Text

  type Section = map<string, string>
  type Config = map<string, Section>

  /** `config.get(section, option)`; `None` stands for NoSectionError / NoOptionError. */
  function Get(cfg: Config, section: string, option: string): Option<string> {
    if section in cfg && Lower(option) in cfg[section] then Some(cfg[section][Lower(option)]) else None
  }

  /** The strings `getboolean` accepts, compared case-insensitively; `None` is its ValueError. */
  function ParseBool(v: string): Option<bool> {
    var l := Lower(v);
    if l == "1" || l == "yes" || l == "true" || l == "on" then Some(true)
    else if l == "0" || l == "no" || l == "false" || l == "off" then Some(false)
    else None
  }

  /** `config.getboolean(section, option)`: a missing option and a malformed value both raise. */
  function GetBoolean(cfg: Config, section: string, option: string): Option<bool> {
    match Get(cfg, section, option)
    case None => None
    case Some(v) => ParseBool(v)
  }

  /**
   * `config.getboolean(section, option, fallback=f)`: the fallback covers a
   * missing section or option only; a malformed value still raises.
   */
  function GetBooleanOr(cfg: Config, section: string, option: string, fallback: bool): Option<bool> {
    match Get(cfg, section, option)
    case None => Some(fallback)
    case Some(v) => ParseBool(v)
  }

  /**
   * `config.get(section, option) if cond else None`: `Some(None)` when the
   * option is not read, `Some(Some(v))` when it is read, `None` when reading it raised.
   */
  function GetIf(cond: bool, cfg: Config, section: string, option: string): Option<Option<string>> {
    if !cond then Some(None)
    else match Get(cfg, section, option)
      case None => None
      case Some(v) => Some(Some(v))
  }

  /** `config.getboolean(section, option) if cond else None`, in the shape of GetIf. */
  function GetBooleanIf(cond: bool, cfg: Config, section: string, option: string): Option<Option<bool>> {
    if !cond then Some(None)
    else match GetBoolean(cfg, section, option)
      case None => None
      case Some(b) => Some(Some(b))
  }

  /** Option names differing only in ASCII case name the same option. */
  lemma {:induction false} GetIgnoresOptionCase(cfg: Config, section: string, o1: string, o2: string)
    requires |o1| == |o2|
    requires forall i :: 0 <= i < |o1| ==> LowerChar(o1[i]) == LowerChar(o2[i])
    ensures Get(cfg, section, o1) == Get(cfg, section, o2)
  {
    assert Lower(o1) == Lower(o2);
  }
}
