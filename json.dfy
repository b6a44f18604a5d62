/**
 * The JSON values the validator and the reader work on: a value tree whose
 * objects keep their members in document order, duplicate names included.
 */
module JsonValues {
  import opened Wrappers

  datatype Json =
    | Null
    | Bool(b: bool)
    | Num(n: real)
    | Str(s: string)
    | Arr(items: seq<Json>)
    | Obj(members: seq<(string, Json)>)

  /** The kind tag of a value, as reported for a parsed element. */
  datatype Kind = ObjectKind | ArrayKind | StringKind | NumberKind | TrueKind | FalseKind | NullKind

  function KindOf(v: Json): Kind
  {
    match v
    case Null => NullKind
    case Bool(b) => if b then TrueKind else FalseKind
    case Num(_) => NumberKind
    case Str(_) => StringKind
    case Arr(_) => ArrayKind
    case Obj(_) => ObjectKind
  }

  /** A number with no fractional part. */
  predicate IsWhole(r: real)
  {
    r.Floor as real == r
  }

  const Int64Min: int := -0x8000_0000_0000_0000
  const Int64Max: int := 0x7FFF_FFFF_FFFF_FFFF

  /** A number that a signed 64-bit integer can hold exactly. */
  predicate InInt64(r: real)
  {
    IsWhole(r) && Int64Min <= r.Floor <= Int64Max
  }

  /** Reading a number as a signed 64-bit integer; any other number is a format error. */
  function GetInt64(r: real): (res: Option<int>)
    ensures res.Some? <==> InInt64(r)
    ensures res.Some? ==> res.value as real == r && Int64Min <= res.value <= Int64Max
  {
    if InInt64(r) then Some(r.Floor) else None
  }

  predicate HasMember(members: seq<(string, Json)>, name: string)
  {
    exists i :: 0 <= i < |members| && members[i].0 == name
  }

  /** Looking up an object member by name; with duplicate names the last one wins. */
  function Lookup(members: seq<(string, Json)>, name: string): (r: Option<Json>)
    ensures r.Some? <==> HasMember(members, name)
    ensures r.Some? ==> exists i :: 0 <= i < |members| && members[i] == (name, r.value) &&
                          forall j :: i < j < |members| ==> members[j].0 != name
  {
    if |members| == 0 then None
    else if members[|members| - 1].0 == name then Some(members[|members| - 1].1)
    else
      var front := members[..|members| - 1];
      var r := Lookup(front, name);
      assert HasMember(members, name) ==> HasMember(front, name) by {
        if HasMember(members, name) {
          var i :| 0 <= i < |members| && members[i].0 == name;
          assert i < |members| - 1;
          assert front[i].0 == name;
        }
      }
      if r.Some? then
        var i :| 0 <= i < |front| && front[i] == (name, r.value) &&
                 forall j :: i < j < |front| ==> front[j].0 != name;
        assert members[i] == (name, r.value);
        r
      else r
  }
}
