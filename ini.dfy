/**
  A loaded INI file as the core reads it through `gopkg.in/ini.v1`:
  `cfg.Section(s).Key(k).String()` yields the value, or "" when the section
  or the key is missing (the library creates it empty). Reading and parsing
  the file itself is not modelled.
 */
module Ini {

  type IniFile = map<string, map<string, string>>

  function KeyString(cfg: IniFile, section: string, key: string): (val: string)
    ensures section !in cfg || key !in cfg[section] ==> val == ""
    ensures section in cfg && key in cfg[section] ==> val == cfg[section][key]
  {
    if section in cfg && key in cfg[section] then cfg[section][key] else ""
  }

  /**
    The `enabled` decision the first-generation readers share (DHCP, UPnP,
    IPFIX): "true" and "1" enable, anything else, a missing key included,
    leaves the protocol disabled.
   */
  predicate EnabledFlag(val: string) {
    val == "true" || val == "1"
  }
}
