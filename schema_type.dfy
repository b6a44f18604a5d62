/** The schema type set: one bit per JSON kind, combined with bitwise OR. */
module SchemaTypes {

  type TypeSet = bv8

  const NoneType: TypeSet := 0
  const StringType: TypeSet := 1
  const NumberType: TypeSet := 2
  const IntegerType: TypeSet := 4
  const BooleanType: TypeSet := 8
  const ObjectType: TypeSet := 16
  const ArrayType: TypeSet := 32
  const NullType: TypeSet := 64

  /** The seven named kinds, in declaration order. */
  const Kinds: seq<TypeSet> := [StringType, NumberType, IntegerType, BooleanType, ObjectType, ArrayType, NullType]

  /** Every named kind together. */
  const AllTypes: TypeSet := 127

  predicate IsSingleBit(t: TypeSet)
  {
    t != 0 && t & (t - 1) == 0
  }

  function UnionOf(ts: seq<TypeSet>): (u: TypeSet)
    ensures forall i :: 0 <= i < |ts| ==> ts[i] & u == ts[i]
  {
    if |ts| == 0 then 0 else ts[0] | UnionOf(ts[1..])
  }

  /** None is the empty set and each named kind is a distinct single bit. */
  lemma KindsAreDistinctBits()
    ensures NoneType == 0
    ensures forall i :: 0 <= i < |Kinds| ==> IsSingleBit(Kinds[i])
    ensures forall i, j :: 0 <= i < j < |Kinds| ==> Kinds[i] & Kinds[j] == 0
  {
  }

  /** The named kinds together make 127. */
  lemma UnionIsAllTypes()
    ensures UnionOf(Kinds) == AllTypes
  {
    assert UnionOf(Kinds[7..]) == 0;
    assert UnionOf(Kinds[6..]) == 64;
    assert UnionOf(Kinds[5..]) == 96;
    assert UnionOf(Kinds[4..]) == 112;
    assert UnionOf(Kinds[3..]) == 120;
    assert UnionOf(Kinds[2..]) == 124;
    assert UnionOf(Kinds[1..]) == 126;
  }

  /** Any combination of named kinds stays within the seven low bits. */
  lemma {:induction false} UnionFitsSevenBits(ts: seq<TypeSet>)
    requires forall i :: 0 <= i < |ts| ==> ts[i] in Kinds
    ensures UnionOf(ts) & 0x80 == 0
    ensures UnionOf(ts) & AllTypes == UnionOf(ts)
  {
    if |ts| > 0 {
      UnionFitsSevenBits(ts[1..]);
    }
  }
}
