// The attestations of types/atts.go and the vocabulary of the two list algorithms
// over them.
module Attestations {
  import opened Wrappers

  // A go-bitfield Bitlist: its length in bits and the indices of the set bits.
  datatype Bitlist = Bitlist(length: nat, bits: set<nat>) {

    // Bitlist.Contains; None is its error for operands of different lengths.
    function Contains(other: Bitlist): Option<bool> {
      if length != other.length then None else Some(other.bits <= bits)
    }

    function Count(): nat {
      |bits|
    }
  }

  // An entry of a ProposerAtts list. The tag stands for the pointer, so two attestations
  // with equal contents can still be told apart. The root is None when HashTreeRoot fails;
  // convertible says whether ToBitlist64 accepts the aggregation bits.
  datatype Attestation = Attestation(
    tag: nat, slot: nat, root: Option<nat>, aggregationBits: Bitlist, convertible: bool)

  type ProposerAtts = seq<Attestation>

  // y carries every bit of x, on bitlists of the same length.
  predicate Covered(x: Attestation, y: Attestation) {
    y.aggregationBits.Contains(x.aggregationBits) == Some(true)
  }

  predicate SameLength(x: Attestation, y: Attestation) {
    x.aggregationBits.length == y.aggregationBits.length
  }

  // The attestations of a list that satisfy a property, in list order.
  function Filter(s: ProposerAtts, p: Attestation -> bool): ProposerAtts {
    if s == [] then []
    else if p(s[|s| - 1]) then Filter(s[..|s| - 1], p) + [s[|s| - 1]]
    else Filter(s[..|s| - 1], p)
  }

  lemma FilterSnoc(s: ProposerAtts, x: Attestation, p: Attestation -> bool)
    ensures Filter(s + [x], p) == Filter(s, p) + if p(x) then [x] else []
  {
    assert (s + [x])[..|s + [x]| - 1] == s;
  }

  // A list and the counts of its filtered part.
  lemma {:induction false} FilterCount(s: ProposerAtts, p: Attestation -> bool, x: Attestation)
    ensures multiset(Filter(s, p))[x] == if p(x) then multiset(s)[x] else 0
  {
    if s != [] {
      FilterCount(s[..|s| - 1], p, x);
      assert s == s[..|s| - 1] + [s[|s| - 1]];
    }
  }

  lemma FilterMember(s: ProposerAtts, p: Attestation -> bool, x: Attestation)
    ensures x in Filter(s, p) <==> x in s && p(x)
  {
    FilterCount(s, p, x);
    assert x in Filter(s, p) <==> x in multiset(Filter(s, p));
    assert x in s <==> x in multiset(s);
  }

  lemma {:induction false} FilterConcat(s: ProposerAtts, t: ProposerAtts, p: Attestation -> bool)
    ensures Filter(s + t, p) == Filter(s, p) + Filter(t, p)
  {
    if t == [] {
      assert s + t == s;
    } else {
      FilterConcat(s, t[..|t| - 1], p);
      assert (s + t)[..|s + t| - 1] == s + t[..|t| - 1];
    }
  }

  lemma {:induction false} FilterAll(s: ProposerAtts, p: Attestation -> bool)
    requires forall x :: x in s ==> p(x)
    ensures Filter(s, p) == s
  {
    if s != [] {
      FilterAll(s[..|s| - 1], p);
    }
  }

  lemma {:induction false} FilterNone(s: ProposerAtts, p: Attestation -> bool)
    requires forall x :: x in s ==> !p(x)
    ensures Filter(s, p) == []
  {
    if s != [] {
      FilterNone(s[..|s| - 1], p);
    }
  }

  // The group of a data root.
  function HasRoot(root: nat): Attestation -> bool {
    (x: Attestation) => x.root == Some(root)
  }

  function Group(s: ProposerAtts, root: nat): ProposerAtts {
    Filter(s, HasRoot(root))
  }

  // The block of a slot.
  function HasSlot(slot: nat): Attestation -> bool {
    (x: Attestation) => x.slot == slot
  }

  function Block(s: ProposerAtts, slot: nat): ProposerAtts {
    Filter(s, HasSlot(slot))
  }
}
