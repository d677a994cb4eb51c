/**
 * The property store: the flat .envclirc mapping of user preferences, limited
 * to a fixed allow-list of option names. Every operation loads the file
 * afresh; the mutating ones save it again, and only for allow-listed keys.
 */
module PropertyConfig {
  import opened Wrappers

  type Properties = map<string, string>

  /** The recognised option names; any other key is silently ignored. */
  const VALID_OPTIONS: seq<string> :=
    ["http-proxy", "https-proxy", "global-configuration-path", "cache-path", "last-update-check"]

  predicate IsValidOption(key: string) {
    key in VALID_OPTIONS
  }

  /**
   * LoadPropertyConfigFile: a missing file is an empty store, not an error; a
   * present file yields whatever mapping the document loader read from it.
   */
  function LoadPropertyFile(file: Option<Properties>): (props: Properties)
    ensures file.None? ==> props == map[]
    ensures file.Some? ==> props == file.value
  {
    match file
    case None => map[]
    case Some(m) => m
  }

  /** The mapping SetPropertyConfigEntry saves after loading props. */
  function Assigned(props: Properties, key: string, value: string): Properties {
    if IsValidOption(key) then props[key := value] else props
  }

  /** The mapping UnsetPropertyConfigEntry saves: the key stays, its value blanked. */
  function Cleared(props: Properties, key: string): Properties {
    if IsValidOption(key) then props[key := ""] else props
  }

  /** What GetPropertyConfigEntry returns; a Go map yields "" for a missing key. */
  function Lookup(props: Properties, key: string): string {
    if IsValidOption(key) && key in props then props[key] else ""
  }

  /** The backing .envclirc file of the execution directory. */
  class PropertyStore {
    /** The file's mapping, or None while the file does not exist. */
    var file: Option<Properties>

    constructor (initial: Option<Properties>)
      ensures file == initial
    {
      file := initial;
    }

    /** The mapping a load of the file produces. */
    function Loaded(): Properties
      reads this
    {
      LoadPropertyFile(file)
    }

    method SetPropertyConfigEntry(key: string, value: string)
      modifies this
      ensures IsValidOption(key) ==> file == Some(Assigned(old(Loaded()), key, value))
      ensures !IsValidOption(key) ==> file == old(file)
    {
      var props := LoadPropertyFile(file);
      if IsValidOption(key) {
        props := props[key := value];
        file := Some(props);
      }
    }

    method GetPropertyConfigEntry(key: string) returns (value: string)
      ensures value == Lookup(Loaded(), key)
    {
      var props := LoadPropertyFile(file);
      value := "";
      if IsValidOption(key) {
        if key in props {
          value := props[key];
        }
      }
    }

    method UnsetPropertyConfigEntry(key: string)
      modifies this
      ensures IsValidOption(key) ==> file == Some(Cleared(old(Loaded()), key))
      ensures !IsValidOption(key) ==> file == old(file)
    {
      var props := LoadPropertyFile(file);
      if IsValidOption(key) {
        props := props[key := ""];
        file := Some(props);
      }
    }
  }

  /** A set is read back by a later get, whatever the file held before. */
  lemma GetAfterSet(props: Properties, key: string, value: string)
    requires IsValidOption(key)
    ensures Lookup(LoadPropertyFile(Some(Assigned(props, key, value))), key) == value
  {
  }

  /** A set changes no other key: its presence and its value stay as they were. */
  lemma SetLeavesOtherKeys(props: Properties, key: string, value: string, other: string)
    requires other != key
    ensures other in Assigned(props, key, value) <==> other in props
    ensures other in props ==> Assigned(props, key, value)[other] == props[other]
    ensures Lookup(Assigned(props, key, value), other) == Lookup(props, other)
  {
  }

  /** Unset keeps the key in the mapping, with the empty value; other keys are untouched. */
  lemma UnsetBlanksKey(props: Properties, key: string, other: string)
    requires IsValidOption(key)
    requires other != key
    ensures key in Cleared(props, key) && Cleared(props, key)[key] == ""
    ensures Lookup(Cleared(props, key), key) == ""
    ensures Cleared(props, key) == Assigned(props, key, "")
    ensures other in Cleared(props, key) <==> other in props
    ensures other in props ==> Cleared(props, key)[other] == props[other]
  {
  }

  /** An unrecognised key reads as "" whatever the file holds, and set and unset leave the mapping alone. */
  lemma InvalidKeyIgnored(props: Properties, key: string, value: string)
    requires !IsValidOption(key)
    ensures Lookup(props, key) == ""
    ensures Assigned(props, key, value) == props
    ensures Cleared(props, key) == props
  {
  }

  /** A recognised key that is absent from the file reads as "", just like a blanked one. */
  lemma UnsetValidKeyReadsEmpty(props: Properties, key: string)
    requires IsValidOption(key)
    requires key !in props
    ensures Lookup(props, key) == Lookup(Cleared(props, key), key) == ""
  {
  }

  /** Set followed by get on the store object returns the value just set. */
  method SetThenGet(store: PropertyStore, key: string, value: string) returns (got: string)
    modifies store
    ensures IsValidOption(key) ==> got == value
    ensures !IsValidOption(key) ==> got == "" && store.file == old(store.file)
  {
    store.SetPropertyConfigEntry(key, value);
    got := store.GetPropertyConfigEntry(key);
  }
}
