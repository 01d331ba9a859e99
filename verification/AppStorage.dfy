/** The app's files in the shared storage directory (src/utils/sessionReset.ts,
    src/utils/auth.ts): which of them rotation and logout unlink. */
module AppStorage {

  const PREFIX := "dot-cli_"
  const SUFFIX := ".json"
  const ROTATE_KEYS: seq<string> := ["DeviceIdentity", "SsoSessionsV3"]

  datatype Kind = File | Other

  predicate EndsWith(s: string, suffix: string) {
    |suffix| <= |s| && s[|s| - |suffix|..] == suffix
  }

  /** The storage key of a file of this app: its name without prefix and one suffix. */
  function Key(name: string): string
    requires PREFIX <= name
  {
    var rest := name[|PREFIX|..];
    if EndsWith(rest, SUFFIX) then rest[..|rest| - |SUFFIX|] else rest
  }

  predicate Ours(name: string, kind: Kind) {
    kind.File? && PREFIX <= name
  }

  predicate Rotates(name: string, kind: Kind) {
    Ours(name, kind) && Key(name) in ROTATE_KEYS
  }

  /** Rotation is after the identity and the session list, with or without suffix, and
      nothing else: allowance keys and the login stamp stay. */
  lemma RotatesExactly(name: string)
    ensures Rotates(name, File) <==>
      exists key :: key in ROTATE_KEYS && (name == PREFIX + key || name == PREFIX + key + SUFFIX)
  {
    if Rotates(name, File) {
      var rest, key := name[|PREFIX|..], Key(name);
      assert name == PREFIX + rest;
      if EndsWith(rest, SUFFIX) {
        assert rest == key + SUFFIX;
        assert name == PREFIX + key + SUFFIX;
      }
    }
    forall key | key in ROTATE_KEYS && (name == PREFIX + key || name == PREFIX + key + SUFFIX)
      ensures Rotates(name, File)
    {
      KeyOf(key, name == PREFIX + key);
    }
  }

  lemma KeyOf(key: string, bare: bool)
    requires key in ROTATE_KEYS
    ensures Key(if bare then PREFIX + key else PREFIX + key + SUFFIX) == key
  {
    var name := if bare then PREFIX + key else PREFIX + key + SUFFIX;
    var rest := name[|PREFIX|..];
    if bare {
      assert rest == key;
      assert key[|key| - 5] != '.' by {
        assert key == "DeviceIdentity" || key == "SsoSessionsV3";
      }
      assert rest[|rest| - 5..][0] == key[|key| - 5] != SUFFIX[0];
    } else {
      assert rest == key + SUFFIX;
      assert rest[|rest| - 5..] == SUFFIX;
    }
  }

  /** A directory, missing or not; `locked` names cannot be unlinked. */
  class Directory {
    var missing: bool
    var entries: map<string, Kind>
    const locked: set<string>

    constructor (missing: bool, entries: map<string, Kind>, locked: set<string>)
      requires missing ==> entries == map[]
      ensures this.missing == missing && this.entries == entries && this.locked == locked
    {
      this.missing, this.entries, this.locked := missing, entries, locked;
    }

    /** Errors are swallowed: a name that cannot be unlinked stays. */
    method Unlink(name: string)
      modifies this`entries
      ensures entries == if name in locked then old(entries) else old(entries) - {name}
    {
      if name !in locked {
        entries := entries - {name};
      }
    }

    /** Unlinks the identity and session files, before a fresh pairing. */
    method ResetDeviceIdentity()
      requires missing ==> entries == map[]
      modifies this`entries
      ensures forall name :: name in entries <==>
        name in old(entries) && (name in locked || !Rotates(name, old(entries)[name]))
      ensures forall name :: name in entries ==> entries[name] == old(entries)[name]
    {
      if missing {
        return;
      }
      UnlinkAll(set name | name in entries && Rotates(name, entries[name]));
    }

    /** Unlinks every file of this app, at logout. */
    method ClearLocalAppStorage()
      requires missing ==> entries == map[]
      modifies this`entries
      ensures forall name :: name in entries <==>
        name in old(entries) && (name in locked || !Ours(name, old(entries)[name]))
      ensures forall name :: name in entries ==> entries[name] == old(entries)[name]
    {
      if missing {
        return;
      }
      UnlinkAll(set name | name in entries && Ours(name, entries[name]));
    }

    /** Unlinks run concurrently: in any order, each independent of the others. */
    method UnlinkAll(names: set<string>)
      modifies this`entries
      ensures entries == old(entries) - (names - locked)
    {
      var todo := names;
      while todo != {}
        invariant todo <= names
        invariant entries == old(entries) - ((names - todo) - locked)
        decreases todo
      {
        var name :| name in todo;
        Unlink(name);
        todo := todo - {name};
      }
    }
  }
}
