/**
 * The plugin's configuration as the listeners read it: typed values under
 * dotted keys, each read with the caller's default for a missing key.
 */
module Configs {
  import opened Wrappers
  import opened JavaText

  datatype Config = Config(
    bools: map<string, bool>,
    longs: map<string, int>,
    doubles: map<string, real>,
    strings: map<string, string>,
    lists: map<string, seq<string>>)

  /** `getBoolean(path, def)`. */
  function CfgBoolean(cfg: Config, key: string, def: bool): (r: bool)
    ensures key !in cfg.bools ==> r == def
    ensures key in cfg.bools ==> r == cfg.bools[key]
  {
    if key in cfg.bools then cfg.bools[key] else def
  }

  /** `getLong(path, def)` and `getInt(path, def)`. */
  function CfgLong(cfg: Config, key: string, def: int): (r: int)
    ensures key !in cfg.longs ==> r == def
    ensures key in cfg.longs ==> r == cfg.longs[key]
  {
    if key in cfg.longs then cfg.longs[key] else def
  }

  /** `getDouble(path, def)`. */
  function CfgDouble(cfg: Config, key: string, def: real): (r: real)
    ensures key !in cfg.doubles ==> r == def
    ensures key in cfg.doubles ==> r == cfg.doubles[key]
  {
    if key in cfg.doubles then cfg.doubles[key] else def
  }

  /** `getString(path)`: null for a missing key. */
  function CfgStringOrNull(cfg: Config, key: string): (r: Option<string>)
    ensures r.Some? <==> key in cfg.strings
    ensures r.Some? ==> r.value == cfg.strings[key]
  {
    if key in cfg.strings then Some(cfg.strings[key]) else None
  }

  /** `getString(path, def)`. */
  function CfgString(cfg: Config, key: string, def: string): (r: string)
    ensures key !in cfg.strings ==> r == def
    ensures key in cfg.strings ==> r == cfg.strings[key]
  {
    CfgStringOrNull(cfg, key).GetOr(def)
  }

  /** `getStringList(path)`: empty for a missing key. */
  function CfgStringList(cfg: Config, key: string): (r: seq<string>)
    ensures key !in cfg.lists ==> r == []
    ensures key in cfg.lists ==> r == cfg.lists[key]
  {
    if key in cfg.lists then cfg.lists[key] else []
  }
}
