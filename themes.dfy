/** The window theme enum and its display names (code/Models/basic.py). */
module Themes {
  import opened Wrappers

  datatype Theme = Auto | Light | Dark

  /** The enum's integer value: AUTO = 0, LIGHT = 1, DARK = 2. */
  function Value(t: Theme): (v: int)
    ensures 0 <= v <= 2
    ensures v == 0 <==> t == Auto
    ensures v == 1 <==> t == Light
    ensures v == 2 <==> t == Dark
  {
    match t
    case Auto => 0
    case Light => 1
    case Dark => 2
  }

  /** `Theme(v)`: the member with value v, or ValueError (None) for any other integer. */
  function FromValue(v: int): (r: Option<Theme>)
    ensures r.Some? <==> 0 <= v <= 2
    ensures r.Some? ==> Value(r.value) == v
  {
    if v == 0 then Some(Auto)
    else if v == 1 then Some(Light)
    else if v == 2 then Some(Dark)
    else None
  }

  lemma FromValueRoundTrip(t: Theme)
    ensures FromValue(Value(t)) == Some(t)
  {
  }

  /** THEME_NAMES, entry by entry in the dictionary's insertion order. */
  const THEME_ENTRIES: seq<(Theme, string)> :=
    [(Light, "Hell"), (Dark, "Dunkel"), (Auto, "Automatisch")]

  /** A dictionary built from (key, value) pairs; a later pair overrides an earlier one. */
  function DictOf<K, V>(entries: seq<(K, V)>): (m: map<K, V>)
    ensures m.Keys == set i | 0 <= i < |entries| :: entries[i].0
  {
    if entries == [] then map[]
    else DictOf(entries[..|entries| - 1])[entries[|entries| - 1].0 := entries[|entries| - 1].1]
  }

  /** `{v: k for k, v in d.items()}` over the pairs of d in order. */
  function ReversedDict<K, V>(entries: seq<(K, V)>): (m: map<V, K>)
    ensures m.Keys == set i | 0 <= i < |entries| :: entries[i].1
  {
    if entries == [] then map[]
    else ReversedDict(entries[..|entries| - 1])[entries[|entries| - 1].1 := entries[|entries| - 1].0]
  }

  const THEME_NAMES: map<Theme, string> := DictOf(THEME_ENTRIES)

  /** The reversed table used to turn a stored theme name back into a Theme. */
  function ThemesByName(): map<string, Theme> {
    ReversedDict(THEME_ENTRIES)
  }

  ghost predicate DistinctKeys<K, V>(entries: seq<(K, V)>) {
    forall i, j :: 0 <= i < j < |entries| ==> entries[i].0 != entries[j].0
  }

  ghost predicate DistinctValues<K, V>(entries: seq<(K, V)>) {
    forall i, j :: 0 <= i < j < |entries| ==> entries[i].1 != entries[j].1
  }

  /** With distinct keys, the dictionary maps each pair's key to that pair's value. */
  lemma {:induction false} DictOfAt<K, V>(entries: seq<(K, V)>, k: nat)
    requires DistinctKeys(entries) && k < |entries|
    ensures DictOf(entries)[entries[k].0] == entries[k].1
  {
    var n := |entries| - 1;
    if k < n {
      DictOfAt(entries[..n], k);
    }
  }

  /**
   * With distinct keys and distinct values, the reversed dictionary maps each
   * pair's value back to its key, so it is the inverse of the dictionary.
   */
  lemma {:induction false} ReversedDictAt<K, V>(entries: seq<(K, V)>, k: nat)
    requires DistinctValues(entries) && k < |entries|
    ensures ReversedDict(entries)[entries[k].1] == entries[k].0
  {
    var n := |entries| - 1;
    if k < n {
      ReversedDictAt(entries[..n], k);
    }
  }

  /** THEME_NAMES, theme by theme. */
  lemma ThemeNamesTable()
    ensures THEME_NAMES.Keys == {Light, Dark, Auto}
    ensures THEME_NAMES[Auto] == "Automatisch" && THEME_NAMES[Light] == "Hell" && THEME_NAMES[Dark] == "Dunkel"
  {
    DictOfAt(THEME_ENTRIES, 0);
    DictOfAt(THEME_ENTRIES, 1);
    DictOfAt(THEME_ENTRIES, 2);
    var keys := set i | 0 <= i < |THEME_ENTRIES| :: THEME_ENTRIES[i].0;
    assert THEME_ENTRIES[0].0 in keys && THEME_ENTRIES[1].0 in keys && THEME_ENTRIES[2].0 in keys;
  }

  /** Every theme has exactly one name, the three names are distinct, and there are exactly three. */
  lemma ThemeNamesComplete()
    ensures forall t: Theme :: t in THEME_NAMES
    ensures |THEME_NAMES| == 3 && |THEME_NAMES.Values| == 3
    ensures THEME_NAMES[Auto] == "Automatisch" && THEME_NAMES[Light] == "Hell" && THEME_NAMES[Dark] == "Dunkel"
  {
    ThemeNamesTable();
    var names := THEME_NAMES;
    forall t: Theme ensures t in names {
      match t
      case Auto =>
      case Light =>
      case Dark =>
    }
    assert names.Values == {"Hell", "Dunkel", "Automatisch"} by {
      assert names[Light] in names.Values && names[Dark] in names.Values && names[Auto] in names.Values;
      forall n | n in names.Values ensures n == "Hell" || n == "Dunkel" || n == "Automatisch" {
        var t :| t in names && names[t] == n;
      }
    }
  }

  /** The reversed table, name by name. */
  lemma ThemesByNameTable()
    ensures ThemesByName().Keys == {"Hell", "Dunkel", "Automatisch"}
    ensures ThemesByName()["Hell"] == Light && ThemesByName()["Dunkel"] == Dark && ThemesByName()["Automatisch"] == Auto
  {
    ReversedDictAt(THEME_ENTRIES, 0);
    ReversedDictAt(THEME_ENTRIES, 1);
    ReversedDictAt(THEME_ENTRIES, 2);
    var keys := set i | 0 <= i < |THEME_ENTRIES| :: THEME_ENTRIES[i].1;
    assert THEME_ENTRIES[0].1 in keys && THEME_ENTRIES[1].1 in keys && THEME_ENTRIES[2].1 in keys;
  }

  /** The reversed table is the inverse of THEME_NAMES. */
  lemma ThemesByNameInverts()
    ensures forall t: Theme :: t in THEME_NAMES
    ensures forall n :: n in ThemesByName() ==> ThemesByName()[n] in THEME_NAMES
    ensures forall t: Theme :: THEME_NAMES[t] in ThemesByName() && ThemesByName()[THEME_NAMES[t]] == t
    ensures forall n :: n in ThemesByName() ==> THEME_NAMES[ThemesByName()[n]] == n
    ensures ThemesByName().Keys == {"Hell", "Dunkel", "Automatisch"}
  {
    ThemeNamesComplete();
    ThemesByNameTable();
    var byName := ThemesByName();
    forall t: Theme ensures THEME_NAMES[t] in byName && byName[THEME_NAMES[t]] == t {
      match t
      case Auto =>
      case Light =>
      case Dark =>
    }
    forall n | n in byName ensures THEME_NAMES[byName[n]] == n {
      assert n == "Hell" || n == "Dunkel" || n == "Automatisch";
    }
  }
}
