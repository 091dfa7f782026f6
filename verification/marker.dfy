/** Timeline markers (inc/audio/marker.h): the marker type, the rule that
    the song start and end markers cannot be deleted, and the table that
    names the marker types in saved projects. */
module Markers {
  import opened Wrappers

  datatype MarkerType = Start | End | Custom

  /** The fields of a marker that the deletability rule and the project file
      see; its arranger-object base and layout cache are not modelled. */
  datatype Marker = Marker(kind: MarkerType, name: string, trackPos: int, index: int)

  /** marker_is_deletable: only custom markers may be deleted; the song
      start and end markers stay. */
  function IsDeletable(m: Marker): (r: bool)
    ensures r <==> m.kind == Custom
  {
    m.kind != Start && m.kind != End
  }

  /** marker_type_strings: the name of each marker type in a saved project. */
  const MarkerTypeStrings: seq<(string, MarkerType)> :=
    [("start", Start), ("end", End), ("custom", Custom)]

  /** The first table entry named `name`, searching from entry `i`. */
  function FindName(table: seq<(string, MarkerType)>, name: string, i: nat): (r: Option<MarkerType>)
    requires i <= |table|
    ensures r.Some? ==> exists j :: i <= j < |table| && table[j] == (name, r.value)
    ensures r.None? ==> forall j :: i <= j < |table| ==> table[j].0 != name
    decreases |table| - i
  {
    if i == |table| then None
    else if table[i].0 == name then Some(table[i].1)
    else FindName(table, name, i + 1)
  }

  /** The first table entry for `t`, searching from entry `i`. */
  function FindType(table: seq<(string, MarkerType)>, t: MarkerType, i: nat): (r: Option<string>)
    requires i <= |table|
    ensures r.Some? ==> exists j :: i <= j < |table| && table[j] == (r.value, t)
    ensures r.None? ==> forall j :: i <= j < |table| ==> table[j].1 != t
    decreases |table| - i
  {
    if i == |table| then None
    else if table[i].1 == t then Some(table[i].0)
    else FindType(table, t, i + 1)
  }

  /** The marker type a saved name stands for, if any. */
  function TypeOfName(name: string): (r: Option<MarkerType>)
    ensures r.Some? <==> name in {"start", "end", "custom"}
  {
    FindName(MarkerTypeStrings, name, 0)
  }

  /** The saved name of a marker type. */
  function NameOfType(t: MarkerType): (r: string)
    ensures r in {"start", "end", "custom"}
  {
    var found := FindType(MarkerTypeStrings, t, 0);
    var k := if t == Start then 0 else if t == End then 1 else 2;
    assert MarkerTypeStrings[k].1 == t;
    found.value
  }

  /** Each type is saved under its own name and read back as itself. */
  lemma TypeNameRoundTrip(t: MarkerType)
    ensures TypeOfName(NameOfType(t)) == Some(t)
  {
    var name := NameOfType(t);
    var j :| 0 <= j < |MarkerTypeStrings| && MarkerTypeStrings[j] == (name, t);
    var found := TypeOfName(name);
    var j' :| 0 <= j' < |MarkerTypeStrings| && MarkerTypeStrings[j'] == (name, found.value);
    assert j == j' by {
      assert MarkerTypeStrings[0].0 != MarkerTypeStrings[1].0;
      assert MarkerTypeStrings[0].0 != MarkerTypeStrings[2].0;
      assert MarkerTypeStrings[1].0 != MarkerTypeStrings[2].0;
    }
  }

  /** Every known name reads back to a type that is saved under that name. */
  lemma NameTypeRoundTrip(name: string)
    requires TypeOfName(name).Some?
    ensures NameOfType(TypeOfName(name).value) == name
  {
    var t := TypeOfName(name).value;
    var j :| 0 <= j < |MarkerTypeStrings| && MarkerTypeStrings[j] == (name, t);
    var found := NameOfType(t);
    var j' :| 0 <= j' < |MarkerTypeStrings| && MarkerTypeStrings[j'] == (found, t);
    assert j == j' by {
      assert MarkerTypeStrings[0].1 != MarkerTypeStrings[1].1;
      assert MarkerTypeStrings[0].1 != MarkerTypeStrings[2].1;
      assert MarkerTypeStrings[1].1 != MarkerTypeStrings[2].1;
    }
  }

  /** Distinct types have distinct names. */
  lemma NameOfTypeInjective(a: MarkerType, b: MarkerType)
    requires NameOfType(a) == NameOfType(b)
    ensures a == b
  {
    TypeNameRoundTrip(a);
    TypeNameRoundTrip(b);
  }
}
