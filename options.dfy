/** The option lists of a foreign server and of a user mapping, and the two
    scans the extension runs over them in its named-server call shape. */
module Options {
  import opened Wrappers
  import opened CInt

  /** One `DefElem` of an option list: the option's name and its text value. */
  type DefElem = (string, string)

  /** The value of the last entry named `name`, or `None` when there is none:
      what a scan that overwrites a variable at every match leaves in it. */
  function LastValue(opts: seq<DefElem>, name: string): (r: Option<string>)
    ensures r.None? <==> forall i :: 0 <= i < |opts| ==> opts[i].0 != name
  {
    if opts == [] then None
    else if opts[|opts| - 1].0 == name then Some(opts[|opts| - 1].1)
    else
      assert forall i :: 0 <= i < |opts| - 1 ==> opts[..|opts| - 1][i] == opts[i];
      LastValue(opts[..|opts| - 1], name)
  }

  /** The value found is that of an entry named `name` after which no entry
      has that name. */
  lemma {:induction false} LastValueIsLast(opts: seq<DefElem>, name: string)
    requires LastValue(opts, name).Some?
    ensures exists i :: 0 <= i < |opts| && opts[i] == (name, LastValue(opts, name).value) &&
              forall j :: i < j < |opts| ==> opts[j].0 != name
  {
    var k := |opts| - 1;
    if opts[k].0 == name {
      assert opts[k] == (name, LastValue(opts, name).value);
    } else {
      var front := opts[..k];
      LastValueIsLast(front, name);
      var i :| 0 <= i < |front| && front[i] == (name, LastValue(front, name).value) &&
                forall j :: i < j < |front| ==> front[j].0 != name;
      assert opts[i] == front[i];
      assert forall j :: i < j < |opts| ==> opts[j].0 != name by {
        forall j | i < j < |opts| ensures opts[j].0 != name {
          if j < k { assert opts[j] == front[j]; }
        }
      }
    }
  }

  /** Appending an entry changes the last value of its own name only. */
  lemma LastValueAppend(opts: seq<DefElem>, e: DefElem, name: string)
    ensures LastValue(opts + [e], name) == if e.0 == name then Some(e.1) else LastValue(opts, name)
  {
    assert (opts + [e])[..|opts|] == opts;
  }

  /** A text setting: the last value given for `name`, else `default`. */
  function TextSetting(opts: seq<DefElem>, name: string, default: string): string {
    LastValue(opts, name).GetOr(default)
  }

  /** An integer setting: `atoi` of the last value given for `name`, stored
      into an `int16`, else `default`. */
  function Int16Setting(opts: seq<DefElem>, name: string, default: int16): int16 {
    match LastValue(opts, name)
    case Some(v) => Atoi16(v)
    case None => default
  }

  /** A text setting is the default when no entry has the name, and
      otherwise the value of an entry with that name. */
  lemma TextSettingSource(opts: seq<DefElem>, name: string, default: string)
    ensures (forall i :: 0 <= i < |opts| ==> opts[i].0 != name) ==> TextSetting(opts, name, default) == default
    ensures (exists i :: 0 <= i < |opts| && opts[i].0 == name) ==>
              exists i :: 0 <= i < |opts| && opts[i] == (name, TextSetting(opts, name, default))
  {
    if LastValue(opts, name).Some? {
      LastValueIsLast(opts, name);
    }
  }

  /** An integer setting is the default when no entry has the name, and
      otherwise `atoi` of the value of an entry with that name. */
  lemma Int16SettingSource(opts: seq<DefElem>, name: string, default: int16)
    ensures (forall i :: 0 <= i < |opts| ==> opts[i].0 != name) ==> Int16Setting(opts, name, default) == default
    ensures (exists i :: 0 <= i < |opts| && opts[i].0 == name) ==>
              exists i :: 0 <= i < |opts| && opts[i].0 == name && Int16Setting(opts, name, default) == Atoi16(opts[i].1)
  {
    if LastValue(opts, name).Some? {
      LastValueIsLast(opts, name);
    }
  }

  /** Appending an entry changes the text setting of its own name only. */
  lemma TextSettingAppend(opts: seq<DefElem>, e: DefElem, name: string, default: string)
    ensures TextSetting(opts + [e], name, default) == if e.0 == name then e.1 else TextSetting(opts, name, default)
  {
    LastValueAppend(opts, e, name);
  }

  /** Appending an entry changes the integer setting of its own name only. */
  lemma Int16SettingAppend(opts: seq<DefElem>, e: DefElem, name: string, default: int16)
    ensures Int16Setting(opts + [e], name, default) == if e.0 == name then Atoi16(e.1) else Int16Setting(opts, name, default)
  {
    LastValueAppend(opts, e, name);
  }

  /** The scan of a foreign server's options: `host`, `port` and `timeout`
      overwrite the variables passed in, every other name is ignored. */
  method ScanServerOptions(opts: seq<DefElem>, host0: string, port0: int16, timeout0: int16)
    returns (host: string, port: int16, timeout: int16)
    ensures host == TextSetting(opts, "host", host0)
    ensures port == Int16Setting(opts, "port", port0)
    ensures timeout == Int16Setting(opts, "timeout", timeout0)
  {
    host, port, timeout := host0, port0, timeout0;
    var i := 0;
    while i < |opts|
      invariant 0 <= i <= |opts|
      invariant host == TextSetting(opts[..i], "host", host0)
      invariant port == Int16Setting(opts[..i], "port", port0)
      invariant timeout == Int16Setting(opts[..i], "timeout", timeout0)
    {
      var (name, arg) := opts[i];
      if name == "host" {
        host := arg;
      } else if name == "port" {
        port := Atoi16(arg);
      } else if name == "timeout" {
        timeout := Atoi16(arg);
      }
      assert opts[..i + 1] == opts[..i] + [opts[i]];
      TextSettingAppend(opts[..i], opts[i], "host", host0);
      Int16SettingAppend(opts[..i], opts[i], "port", port0);
      Int16SettingAppend(opts[..i], opts[i], "timeout", timeout0);
      i := i + 1;
    }
    assert opts[..i] == opts;
  }

  /** The scan of a user mapping's options: `user` and `password` overwrite
      the variables passed in (`None` for a NULL pointer), every other name is
      ignored. */
  method ScanUserMapping(opts: seq<DefElem>, user0: Option<string>, pass0: Option<string>)
    returns (user: Option<string>, pass: Option<string>)
    ensures user == (if LastValue(opts, "user").Some? then LastValue(opts, "user") else user0)
    ensures pass == (if LastValue(opts, "password").Some? then LastValue(opts, "password") else pass0)
  {
    user, pass := user0, pass0;
    var i := 0;
    while i < |opts|
      invariant 0 <= i <= |opts|
      invariant user == (if LastValue(opts[..i], "user").Some? then LastValue(opts[..i], "user") else user0)
      invariant pass == (if LastValue(opts[..i], "password").Some? then LastValue(opts[..i], "password") else pass0)
    {
      var (name, arg) := opts[i];
      if name == "user" {
        user := Some(arg);
      } else if name == "password" {
        pass := Some(arg);
      }
      assert opts[..i + 1] == opts[..i] + [opts[i]];
      LastValueAppend(opts[..i], opts[i], "user");
      LastValueAppend(opts[..i], opts[i], "password");
      i := i + 1;
    }
    assert opts[..i] == opts;
  }
}
