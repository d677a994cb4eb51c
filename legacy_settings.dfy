/**
 * The older `config set`, `config get` and `config unset` subcommands: they
 * load the global .envclirc record with its two proxy fields, change at most
 * the named field, and save the record again (set and unset) or only report
 * it (get).
 */
module LegacySettings {
  import opened Wrappers

  /** The global configuration record. */
  datatype GlobalConfig = GlobalConfig(httpProxy: string, httpsProxy: string)

  /** Done, or stopped by log.Fatal because the argument count was wrong. */
  datatype Status = Done | UsageError

  /** The record after `config set name value`. */
  function WithField(cfg: GlobalConfig, name: string, value: string): GlobalConfig {
    if name == "HttpProxy" then cfg.(httpProxy := value)
    else if name == "HttpsProxy" then cfg.(httpsProxy := value)
    else cfg
  }

  /** The record after `config unset name`. */
  function WithoutField(cfg: GlobalConfig, name: string): GlobalConfig {
    if name == "HttpProxy" then cfg.(httpProxy := "")
    else if name == "HttpsProxy" then cfg.(httpsProxy := "")
    else cfg
  }

  /** The value `config get name` reports, or None for an unknown name. */
  function Field(cfg: GlobalConfig, name: string): Option<string> {
    if name == "HttpProxy" then Some(cfg.httpProxy)
    else if name == "HttpsProxy" then Some(cfg.httpsProxy)
    else None
  }

  predicate IsKnownName(name: string) {
    name == "HttpProxy" || name == "HttpsProxy"
  }

  /** The .envclirc file of the execution directory, as the configuration loader reads and writes it. */
  class GlobalConfigFile {
    /** The record a load returns. */
    var stored: GlobalConfig
    /** How many times the record has been saved. */
    var saves: nat

    constructor (initial: GlobalConfig)
      ensures stored == initial && saves == 0
    {
      stored := initial;
      saves := 0;
    }

    method Save(cfg: GlobalConfig)
      modifies this
      ensures stored == cfg && saves == old(saves) + 1
    {
      stored := cfg;
      saves := saves + 1;
    }

    /** `config set name value`. */
    method ConfigSet(args: seq<string>) returns (status: Status)
      modifies this
      ensures |args| != 2 ==> status == UsageError && stored == old(stored) && saves == old(saves)
      ensures |args| == 2 ==>
                status == Done && stored == WithField(old(stored), args[0], args[1]) && saves == old(saves) + 1
    {
      var globalConfig := stored;
      if |args| != 2 {
        return UsageError;
      }
      var varName, varValue := args[0], args[1];
      if varName == "HttpProxy" {
        globalConfig := globalConfig.(httpProxy := varValue);
      } else if varName == "HttpsProxy" {
        globalConfig := globalConfig.(httpsProxy := varValue);
      }
      Save(globalConfig);
      return Done;
    }

    /** `config get name`: reports a field, changes and saves nothing. */
    method ConfigGet(args: seq<string>) returns (status: Status, shown: Option<string>)
      ensures |args| != 1 ==> status == UsageError && shown == None
      ensures |args| == 1 ==> status == Done && shown == Field(stored, args[0])
    {
      var globalConfig := stored;
      if |args| != 1 {
        return UsageError, None;
      }
      var varName := args[0];
      if varName == "HttpProxy" {
        shown := Some(globalConfig.httpProxy);
      } else if varName == "HttpsProxy" {
        shown := Some(globalConfig.httpsProxy);
      } else {
        shown := None;
      }
      status := Done;
    }

    /** `config unset name`. */
    method ConfigUnset(args: seq<string>) returns (status: Status)
      modifies this
      ensures |args| != 1 ==> status == UsageError && stored == old(stored) && saves == old(saves)
      ensures |args| == 1 ==>
                status == Done && stored == WithoutField(old(stored), args[0]) && saves == old(saves) + 1
    {
      var globalConfig := stored;
      if |args| != 1 {
        return UsageError;
      }
      var varName := args[0];
      if varName == "HttpProxy" {
        globalConfig := globalConfig.(httpProxy := "");
      } else if varName == "HttpsProxy" {
        globalConfig := globalConfig.(httpsProxy := "");
      }
      Save(globalConfig);
      return Done;
    }
  }

  /** A set is read back by get, and the other field keeps its value. */
  lemma GetAfterSet(cfg: GlobalConfig, name: string, value: string, other: string)
    requires IsKnownName(name)
    requires other != name
    ensures Field(WithField(cfg, name, value), name) == Some(value)
    ensures Field(WithField(cfg, name, value), other) == Field(cfg, other)
  {
  }

  /** An unknown name changes neither field, for set and for unset, and get reports nothing for it. */
  lemma UnknownNameIgnored(cfg: GlobalConfig, name: string, value: string)
    requires !IsKnownName(name)
    ensures WithField(cfg, name, value) == cfg
    ensures WithoutField(cfg, name) == cfg
    ensures Field(cfg, name) == None
  {
  }

  /** Unset blanks only the named field: it is set to "". */
  lemma UnsetBlanksField(cfg: GlobalConfig, name: string, other: string)
    requires IsKnownName(name)
    requires other != name
    ensures WithoutField(cfg, name) == WithField(cfg, name, "")
    ensures Field(WithoutField(cfg, name), name) == Some("")
    ensures Field(WithoutField(cfg, name), other) == Field(cfg, other)
  {
  }

  /** Set followed by get on the file returns the value just set, after one save. */
  method SetThenGet(file: GlobalConfigFile, name: string, value: string) returns (shown: Option<string>)
    modifies file
    ensures IsKnownName(name) ==> shown == Some(value)
    ensures !IsKnownName(name) ==> shown == None && file.stored == old(file.stored)
    ensures file.saves == old(file.saves) + 1
  {
    var _ := file.ConfigSet([name, value]);
    var _, s := file.ConfigGet([name]);
    shown := s;
  }
}
