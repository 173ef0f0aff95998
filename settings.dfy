/**
 * `name=Value` settings joined by single spaces, the shape of the argument the
 * backend hands to the synthesis tool, and a reader for them. Values are
 * rendered as `str.format` renders a bool.
 */
module Settings {
  import opened Wrappers
  import opened Text

  /** How `str.format` renders a bool. */
  function PyBool(b: bool): string
  {
    if b then "True" else "False"
  }

  /** One `name=Value` setting. */
  function Setting(key: string, b: bool): string
  {
    key + "=" + PyBool(b)
  }

  /** The settings for `keys[i..]` joined by single spaces. */
  function RenderSettings(keys: seq<string>, values: seq<bool>, i: nat): string
    requires |keys| == |values| && i <= |keys|
    decreases |keys| - i
  {
    if i == |keys| then ""
    else if i == |keys| - 1 then Setting(keys[i], values[i])
    else Setting(keys[i], values[i]) + (" " + RenderSettings(keys, values, i + 1))
  }

  /** Reads `True` or `False` at the front of `s`, giving the value and what follows. */
  function ParseBool(s: string): Option<(bool, string)>
  {
    if |s| >= 4 && s[0] == 'T' && s[1] == 'r' && s[2] == 'u' && s[3] == 'e' then Some((true, s[4..]))
    else if |s| >= 5 && s[0] == 'F' && s[1] == 'a' && s[2] == 'l' && s[3] == 's' && s[4] == 'e' then Some((false, s[5..]))
    else None
  }

  /** Reads `key=True` or `key=False` at the front of `s`, giving the value and what follows. */
  function ParseSetting(s: string, key: string): Option<(bool, string)>
    decreases |key|
  {
    if key == [] then (if s != [] && s[0] == '=' then ParseBool(s[1..]) else None)
    else if s != [] && s[0] == key[0] then ParseSetting(s[1..], key[1..])
    else None
  }

  /** Puts `b` in front of the values read after it, when that reading succeeded. */
  function Prepend(b: bool, o: Option<seq<bool>>): Option<seq<bool>>
  {
    if o.Some? then Some([b] + o.value) else None
  }

  /** Reads the settings named by `keys[i..]`, in that order, separated by single spaces and nothing else. */
  function ParseSettings(s: string, keys: seq<string>, i: nat): Option<seq<bool>>
    requires i <= |keys|
    decreases |keys| - i
  {
    if i == |keys| then (if s == [] then Some([]) else None)
    else
      var p := ParseSetting(s, keys[i]);
      if p.None? then None
      else if i == |keys| - 1 then (if p.value.1 == [] then Some([p.value.0]) else None)
      else if p.value.1 != [] && p.value.1[0] == ' ' then Prepend(p.value.0, ParseSettings(p.value.1[1..], keys, i + 1))
      else None
  }

  lemma ParseBoolAfterRender(b: bool, rest: string)
    ensures ParseBool(PyBool(b) + rest) == Some((b, rest))
  {
    var s := PyBool(b) + rest;
    assert s[|PyBool(b)|..] == rest;
  }

  /** With the name read, `=` and a rendered bool follow. */
  lemma ParseSettingAfterName(b: bool, rest: string)
    ensures ParseSetting("=" + (PyBool(b) + rest), []) == Some((b, rest))
  {
    assert ("=" + (PyBool(b) + rest))[1..] == PyBool(b) + rest;
    ParseBoolAfterRender(b, rest);
  }

  /** Reading a setting first consumes exactly its name. */
  lemma {:induction false} ParseSettingSkipsName(key: string, tail: string)
    ensures ParseSetting(key + tail, key) == ParseSetting(tail, [])
    decreases |key|
  {
    if key == [] {
      assert key + tail == tail;
    } else {
      assert (key + tail)[0] == key[0];
      assert (key + tail)[1..] == key[1..] + tail;
      ParseSettingSkipsName(key[1..], tail);
    }
  }

  lemma ParseSettingAfterRender(key: string, b: bool, rest: string)
    ensures ParseSetting(Setting(key, b) + rest, key) == Some((b, rest))
  {
    assert Setting(key, b) + rest == key + ("=" + (PyBool(b) + rest));
    ParseSettingSkipsName(key, "=" + (PyBool(b) + rest));
    ParseSettingAfterName(b, rest);
  }

  /** One step of the reader: a setting followed by a space and the rest. */
  lemma ParseSettingsStep(s: string, keys: seq<string>, i: nat, b: bool, tail: string)
    requires i < |keys| - 1
    requires ParseSetting(s, keys[i]) == Some((b, " " + tail))
    ensures ParseSettings(s, keys, i) == Prepend(b, ParseSettings(tail, keys, i + 1))
  {
    assert (" " + tail)[1..] == tail;
  }

  /** The last setting is read back, and nothing may follow it. */
  lemma SettingsRoundTripLast(keys: seq<string>, values: seq<bool>, i: nat)
    requires |keys| == |values| && i == |keys| - 1
    ensures ParseSettings(RenderSettings(keys, values, i), keys, i) == Some(values[i..])
  {
    ParseSettingAfterRender(keys[i], values[i], []);
    assert Setting(keys[i], values[i]) + [] == RenderSettings(keys, values, i);
    assert values[i..] == [values[i]];
  }

  /** No settings render as the empty string, which reads back as no values. */
  lemma SettingsRoundTripEnd(keys: seq<string>, values: seq<bool>, i: nat)
    requires |keys| == |values| && i == |keys|
    ensures ParseSettings(RenderSettings(keys, values, i), keys, i) == Some(values[i..])
  {
    assert values[i..] == [];
  }

  /** A setting, a space and settings that read back correctly, read back correctly. */
  lemma SettingsRoundTripCons(s: string, tail: string, keys: seq<string>, values: seq<bool>, i: nat)
    requires |keys| == |values| && i < |keys| - 1
    requires ParseSetting(s, keys[i]) == Some((values[i], " " + tail))
    requires ParseSettings(tail, keys, i + 1) == Some(values[i + 1..])
    ensures ParseSettings(s, keys, i) == Some(values[i..])
  {
    ParseSettingsStep(s, keys, i, values[i], tail);
    assert [values[i]] + values[i + 1..] == values[i..];
  }

  /** Reading rendered settings gives back the values, for any names. */
  lemma {:induction false} SettingsRoundTrip(keys: seq<string>, values: seq<bool>, i: nat)
    requires |keys| == |values| && i <= |keys|
    ensures ParseSettings(RenderSettings(keys, values, i), keys, i) == Some(values[i..])
    decreases |keys| - i
  {
    if i == |keys| {
      SettingsRoundTripEnd(keys, values, i);
    } else if i + 1 == |keys| {
      SettingsRoundTripLast(keys, values, i);
    } else {
      SettingsRoundTrip(keys, values, i + 1);
      RenderStep(keys, values, i);
      ParseSettingAfterRender(keys[i], values[i], " " + RenderSettings(keys, values, i + 1));
      SettingsRoundTripCons(RenderSettings(keys, values, i), RenderSettings(keys, values, i + 1), keys, values, i);
    }
  }

  lemma RenderStep(keys: seq<string>, values: seq<bool>, i: nat)
    requires |keys| == |values| && i + 1 < |keys|
    ensures RenderSettings(keys, values, i) == Setting(keys[i], values[i]) + (" " + RenderSettings(keys, values, i + 1))
  {
  }

  /** A setting holds no double quote when its name does not. */
  lemma SettingHasNoQuote(key: string, b: bool)
    requires '"' !in key
    ensures '"' !in Setting(key, b)
  {
    assert '"' !in PyBool(b);
  }

  /** A rendering holds no double quote when none of its names does. */
  lemma {:induction false} RenderedHasNoQuote(keys: seq<string>, values: seq<bool>, i: nat)
    requires |keys| == |values| && i <= |keys|
    requires forall j :: i <= j < |keys| ==> '"' !in keys[j]
    ensures '"' !in RenderSettings(keys, values, i)
    decreases |keys| - i
  {
    if i < |keys| {
      SettingHasNoQuote(keys[i], values[i]);
      if i + 1 < |keys| {
        RenderedHasNoQuote(keys, values, i + 1);
        RenderStep(keys, values, i);
      }
    }
  }

  /** Only a rendered bool reads as one: what `ParseBool` accepts is `True` or `False` and the rest. */
  lemma ParseBoolOnlyRendered(s: string, b: bool, rest: string)
    requires ParseBool(s) == Some((b, rest))
    ensures s == PyBool(b) + rest
  {
    var n := |PyBool(b)|;
    assert s[..n] == PyBool(b);
    assert s == s[..n] + s[n..];
  }

  /** A setting whose name gains a first character gains it in front. */
  lemma SettingCons(c: char, key: string, b: bool, rest: string)
    ensures [c] + (Setting(key, b) + rest) == Setting([c] + key, b) + rest
  {
  }

  /** An `=` followed by a rendered bool is the setting with the empty name. */
  lemma SettingOfEmptyName(s: string, b: bool, rest: string)
    requires s != [] && s[0] == '=' && s[1..] == PyBool(b) + rest
    ensures s == Setting([], b) + rest
  {
    assert s == [s[0]] + s[1..];
  }

  /** Only a rendered setting reads as one: what `ParseSetting` accepts is `key=Value` and the rest. */
  lemma {:induction false} ParseSettingOnlyRendered(s: string, key: string, b: bool, rest: string)
    requires ParseSetting(s, key) == Some((b, rest))
    ensures s == Setting(key, b) + rest
    decreases |key|
  {
    if key == [] {
      ParseBoolOnlyRendered(s[1..], b, rest);
      SettingOfEmptyName(s, b, rest);
    } else {
      var t := s[1..];
      ParseSettingOnlyRendered(t, key[1..], b, rest);
      SettingCons(key[0], key[1..], b, rest);
      assert s == [s[0]] + t;
      assert key == [key[0]] + key[1..];
    }
  }

  /** The reader's step backwards: a setting followed by a space and text that reads as the remaining values. */
  lemma ParseSettingsSplit(s: string, keys: seq<string>, vs: seq<bool>, i: nat) returns (tail: string)
    requires |keys| == |vs| && i < |keys| - 1
    requires ParseSettings(s, keys, i) == Some(vs[i..])
    ensures s == Setting(keys[i], vs[i]) + (" " + tail)
    ensures ParseSettings(tail, keys, i + 1) == Some(vs[i + 1..])
  {
    var p := ParseSetting(s, keys[i]);
    var rest := p.value.1;
    tail := rest[1..];
    var o := ParseSettings(tail, keys, i + 1);
    assert Prepend(p.value.0, o) == Some(vs[i..]);
    assert vs[i..] == [vs[i]] + vs[i + 1..];
    assert [p.value.0] + o.value == [vs[i]] + vs[i + 1..];
    assert p.value.0 == vs[i];
    assert o.value == ([p.value.0] + o.value)[1..];
    ParseSettingOnlyRendered(s, keys[i], vs[i], rest);
    assert rest == [rest[0]] + tail;
  }

  /** The last setting backwards: it is rendered and nothing follows it. */
  lemma ParseSettingsLast(s: string, keys: seq<string>, vs: seq<bool>, i: nat)
    requires |keys| == |vs| && i == |keys| - 1
    requires ParseSettings(s, keys, i) == Some(vs[i..])
    ensures s == RenderSettings(keys, vs, i)
  {
    var p := ParseSetting(s, keys[i]);
    assert [p.value.0] == vs[i..];
    assert p.value.0 == vs[i];
    ParseSettingOnlyRendered(s, keys[i], vs[i], []);
    assert s == Setting(keys[i], vs[i]) + [];
  }

  /** Only rendered settings read back: text the reader accepts is exactly the rendering of what it read. */
  lemma {:induction false} ParseSettingsOnlyRendered(s: string, keys: seq<string>, vs: seq<bool>, i: nat)
    requires |keys| == |vs| && i <= |keys|
    requires ParseSettings(s, keys, i) == Some(vs[i..])
    ensures s == RenderSettings(keys, vs, i)
    decreases |keys| - i
  {
    if i == |keys| {
    } else if i == |keys| - 1 {
      ParseSettingsLast(s, keys, vs, i);
    } else {
      var tail := ParseSettingsSplit(s, keys, vs, i);
      ParseSettingsOnlyRendered(tail, keys, vs, i + 1);
      RenderStep(keys, vs, i);
    }
  }
}
