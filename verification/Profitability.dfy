// ProposerAtts.SortByProfitability and LimitToMaxAttestations.
module Profitability {
  import opened Wrappers
  import opened Attestations

  // ---------- What the result has to be ----------

  ghost predicate NonIncreasing<T>(s: seq<T>, key: T -> int) {
    forall p, q :: 0 <= p < q < |s| ==> key(s[p]) >= key(s[q])
  }

  function SlotOf(): Attestation -> int {
    (x: Attestation) => x.slot
  }

  function CountOf(): Attestation -> int {
    (x: Attestation) => x.aggregationBits.Count()
  }

  // What aggregation.MaxCover comes to on a block: an error, or the indices it selects.
  type Cover = Option<set<nat>>

  // b is the reordered block g: untouched if max-cover does not run or fails, otherwise the
  // attestations it selects followed by the others, both by non-increasing bit count.
  ghost predicate Reordered(b: ProposerAtts, g: ProposerAtts, cover: Cover) {
    if |g| < 2 || cover == None then b == g
    else SelectedFirst(b, g, cover.value)
  }

  ghost predicate SelectedFirst(b: ProposerAtts, g: ProposerAtts, keys: set<nat>) {
    var k := |Pick(g, keys, |g|)|;
    && k <= |b|
    && multiset(b[..k]) == multiset(Pick(g, keys, |g|))
    && multiset(b[k..]) == multiset(PickOthers(g, keys, |g|))
    && NonIncreasing(b[..k], CountOf())
    && NonIncreasing(b[k..], CountOf())
  }

  // The entries of g[..n] at the given indices, in ascending order; and the others.
  function Pick(g: ProposerAtts, keys: set<nat>, n: nat): ProposerAtts
    requires n <= |g|
  {
    if n == 0 then []
    else if n - 1 in keys then Pick(g, keys, n - 1) + [g[n - 1]]
    else Pick(g, keys, n - 1)
  }

  function PickOthers(g: ProposerAtts, keys: set<nat>, n: nat): ProposerAtts
    requires n <= |g|
  {
    if n == 0 then []
    else if n - 1 in keys then PickOthers(g, keys, n - 1)
    else PickOthers(g, keys, n - 1) + [g[n - 1]]
  }

  lemma CountSnoc(s: ProposerAtts, last: Attestation, x: Attestation)
    ensures multiset(s + [last])[x] == multiset(s)[x] + if last == x then 1 else 0
  {
  }

  lemma {:induction false} PickCount(g: ProposerAtts, keys: set<nat>, n: nat, x: Attestation)
    requires n <= |g|
    ensures multiset(Pick(g, keys, n))[x] + multiset(PickOthers(g, keys, n))[x] == multiset(g[..n])[x]
  {
    if n > 0 {
      PickCount(g, keys, n - 1, x);
      assert g[..n] == g[..n - 1] + [g[n - 1]];
      CountSnoc(g[..n - 1], g[n - 1], x);
      CountSnoc(if n - 1 in keys then Pick(g, keys, n - 1) else PickOthers(g, keys, n - 1), g[n - 1], x);
    }
  }

  // No attestation is lost or doubled by the selection, whichever it is.
  lemma PickPartition(g: ProposerAtts, keys: set<nat>, n: nat)
    requires n <= |g|
    ensures multiset(Pick(g, keys, n) + PickOthers(g, keys, n)) == multiset(g[..n])
  {
    forall x {
      PickCount(g, keys, n, x);
    }
  }

  // The indices at which an attestation stands, among the given ones or among the others.
  function At(g: ProposerAtts, x: Attestation, keys: set<nat>, given: bool, n: nat): set<nat>
    requires n <= |g|
  {
    set i | 0 <= i < n && g[i] == x && (i in keys <==> given)
  }

  lemma AtSnoc(g: ProposerAtts, x: Attestation, keys: set<nat>, given: bool, n: nat)
    requires 0 < n <= |g|
    ensures |At(g, x, keys, given, n)| ==
            |At(g, x, keys, given, n - 1)| + if g[n - 1] == x && (n - 1 in keys <==> given) then 1 else 0
  {
    assert At(g, x, keys, given, n) ==
           At(g, x, keys, given, n - 1) + if g[n - 1] == x && (n - 1 in keys <==> given) then {n - 1} else {};
  }

  // Every attestation is picked as often as it stands at a given index, and left over as
  // often as it stands at another.
  lemma {:induction false} PickExactly(g: ProposerAtts, keys: set<nat>, n: nat, x: Attestation)
    requires n <= |g|
    ensures multiset(Pick(g, keys, n))[x] == |At(g, x, keys, true, n)|
    ensures multiset(PickOthers(g, keys, n))[x] == |At(g, x, keys, false, n)|
  {
    if n > 0 {
      PickExactly(g, keys, n - 1, x);
      AtSnoc(g, x, keys, true, n);
      AtSnoc(g, x, keys, false, n);
    }
  }

  // Max-cover runs on this block and one of its bitlists cannot be converted.
  ghost predicate Unconvertible(g: ProposerAtts) {
    |g| >= 2 && exists x :: x in g && !x.convertible
  }

  ghost predicate SomeUnconvertible(a: ProposerAtts) {
    exists slot :: Unconvertible(Block(a, slot))
  }

  // r is a in order of slots, latest first, with each block reordered by what max-cover
  // came to on it.
  ghost predicate Sorted(r: ProposerAtts, a: ProposerAtts, covers: nat -> Cover) {
    && multiset(r) == multiset(a)
    && NonIncreasing(r, SlotOf())
    && (forall slot :: Reordered(Block(r, slot), Block(a, slot), covers(slot)))
  }

  // ---------- Library calls ----------

  function Insert<T>(s: seq<T>, key: T -> int, x: T): seq<T> {
    if s == [] then [x]
    else if key(x) >= key(s[0]) then [x] + s
    else [s[0]] + Insert(s[1..], key, x)
  }

  lemma {:induction false} InsertMembers<T>(s: seq<T>, key: T -> int, x: T)
    ensures multiset(Insert(s, key, x)) == multiset(s) + multiset{x}
    ensures forall y :: y in Insert(s, key, x) ==> y == x || y in s
  {
    if s != [] && key(x) < key(s[0]) {
      InsertMembers(s[1..], key, x);
      assert s == [s[0]] + s[1..];
    }
  }

  lemma {:induction false} InsertSorted<T>(s: seq<T>, key: T -> int, x: T)
    requires NonIncreasing(s, key)
    ensures NonIncreasing(Insert(s, key, x), key)
  {
    if s != [] && key(x) < key(s[0]) {
      var tail := s[1..];
      InsertSorted(tail, key, x);
      InsertMembers(tail, key, x);
      var rest := Insert(tail, key, x);
      forall p | 0 <= p < |rest| ensures key(s[0]) >= key(rest[p]) {
        assert rest[p] == x || rest[p] in tail;
      }
    }
  }

  // sort.Slice with a descending comparison. Only the contract is used: some sorted
  // permutation, not necessarily a stable one.
  method SortSlice<T>(s: seq<T>, key: T -> int) returns (r: seq<T>)
    ensures multiset(r) == multiset(s) && NonIncreasing(r, key)
  {
    r := [];
    for k := 0 to |s|
      invariant multiset(r) == multiset(s[..k]) && NonIncreasing(r, key)
    {
      InsertMembers(r, key, s[k]);
      InsertSorted(r, key, s[k]);
      r := Insert(r, key, s[k]);
      assert s[..k + 1] == s[..k] + [s[k]];
    }
    assert s[..|s|] == s;
  }

  // ---------- The algorithm ----------

  datatype ConversionError = ConversionError

  // cover is what max-cover comes to on the block, any selection or an error.
  method SelectAtts(atts: ProposerAtts, cover: Cover) returns (r: Result<ProposerAtts, ConversionError>)
    ensures r.Ok? ==> Reordered(r.value, atts, cover) && multiset(r.value) == multiset(atts)
    ensures r.Err? <==> Unconvertible(atts)
  {
    if |atts| < 2 {
      return Ok(atts);
    }
    for i := 0 to |atts|
      invariant forall x :: x in atts[..i] ==> x.convertible
    {
      if !atts[i].convertible {
        assert atts[i] in atts;
        return Err(ConversionError);
      }
      assert atts[..i + 1] == atts[..i] + [atts[i]];
    }
    assert atts[..|atts|] == atts;
    if cover == None {
      return Ok(atts);
    }
    var keys := cover.value;
    var selectedAtts, leftoverAtts: ProposerAtts := [], [];
    for key := 0 to |atts|
      invariant selectedAtts == Pick(atts, keys, key)
      invariant leftoverAtts == PickOthers(atts, keys, key)
    {
      if key in keys {
        selectedAtts := selectedAtts + [atts[key]];
      } else {
        leftoverAtts := leftoverAtts + [atts[key]];
      }
    }
    PickPartition(atts, keys, |atts|);
    selectedAtts, leftoverAtts := SortBoth(selectedAtts, leftoverAtts);
    var b := selectedAtts + leftoverAtts;
    assert b[..|selectedAtts|] == selectedAtts && b[|selectedAtts|..] == leftoverAtts;
    return Ok(b);
  }

  method SortBoth(selectedAtts: ProposerAtts, leftoverAtts: ProposerAtts)
    returns (selected: ProposerAtts, leftover: ProposerAtts)
    ensures multiset(selected) == multiset(selectedAtts) && NonIncreasing(selected, CountOf())
    ensures multiset(leftover) == multiset(leftoverAtts) && NonIncreasing(leftover, CountOf())
    ensures |selected| == |selectedAtts|
  {
    selected := SortSlice(selectedAtts, CountOf());
    leftover := SortSlice(leftoverAtts, CountOf());
    assert |selected| == |multiset(selected)| == |multiset(selectedAtts)|;
  }

  // The slots seen so far, each once, and the block of each.
  ghost predicate Separated(slots: seq<nat>, attsBySlot: map<nat, ProposerAtts>, a: ProposerAtts) {
    && (forall p, q :: 0 <= p < q < |slots| ==> slots[p] != slots[q])
    && (forall slot :: slot in slots <==> slot in attsBySlot)
    && (forall slot :: slot in attsBySlot ==> attsBySlot[slot] == Block(a, slot) != [])
    && (forall slot :: slot !in attsBySlot ==> Block(a, slot) == [])
  }

  method SeparateBySlot(a: ProposerAtts) returns (slots: seq<nat>, attsBySlot: map<nat, ProposerAtts>)
    ensures Separated(slots, attsBySlot, a)
  {
    slots, attsBySlot := [], map[];
    for k := 0 to |a|
      invariant Separated(slots, attsBySlot, a[..k])
    {
      var att := a[k];
      assert a[..k + 1] == a[..k] + [att];
      forall slot: nat
        ensures Block(a[..k + 1], slot) == Block(a[..k], slot) + if att.slot == slot then [att] else []
      {
        FilterSnoc(a[..k], att, HasSlot(slot));
      }
      if att.slot !in attsBySlot {
        slots := slots + [att.slot];
        attsBySlot := attsBySlot[att.slot := [att]];
      } else {
        attsBySlot := attsBySlot[att.slot := attsBySlot[att.slot] + [att]];
      }
    }
    assert a[..|a|] == a;
  }

  // A block of r is finished: reordered, and nothing lost or doubled.
  ghost predicate BlockDone(r: ProposerAtts, a: ProposerAtts, covers: nat -> Cover, slot: nat) {
    Reordered(Block(r, slot), Block(a, slot), covers(slot)) && multiset(Block(r, slot)) == multiset(Block(a, slot))
  }

  ghost predicate Descending(slots: seq<nat>) {
    forall p, q :: 0 <= p < q < |slots| ==> slots[p] > slots[q]
  }

  // The blocks of slots[..k] have been appended to r.
  ghost predicate Assembled(r: ProposerAtts, slots: seq<nat>, k: nat, a: ProposerAtts, covers: nat -> Cover) {
    && k <= |slots|
    && NonIncreasing(r, SlotOf())
    && (forall x :: x in r ==> x.slot in slots[..k])
    && (forall slot :: slot in slots[..k] ==> BlockDone(r, a, covers, slot))
  }

  // Appending a block of slot entries changes that block only.
  lemma AppendBlock(r: ProposerAtts, b: ProposerAtts, slot: nat)
    requires forall x :: x in b ==> x.slot == slot
    ensures Block(r + b, slot) == Block(r, slot) + b
    ensures forall other :: other != slot ==> Block(r + b, other) == Block(r, other)
  {
    FilterConcat(r, b, HasSlot(slot));
    FilterAll(b, HasSlot(slot));
    forall other | other != slot ensures Block(r + b, other) == Block(r, other) {
      FilterConcat(r, b, HasSlot(other));
      FilterNone(b, HasSlot(other));
    }
  }

  lemma AppendKeepsOrder(r: ProposerAtts, b: ProposerAtts, slot: nat)
    requires NonIncreasing(r, SlotOf())
    requires forall x :: x in r ==> x.slot > slot
    requires forall x :: x in b ==> x.slot == slot
    ensures NonIncreasing(r + b, SlotOf())
  {
    var t := r + b;
    forall p, q | 0 <= p < q < |t| ensures t[p].slot >= t[q].slot {
      assert q < |r| ==> SlotOf()(r[p]) >= SlotOf()(r[q]);
      assert q >= |r| ==> t[q] in b;
      assert p < |r| ==> t[p] in r;
      assert p >= |r| ==> t[p] in b;
    }
  }

  lemma BlockEntries(b: ProposerAtts, a: ProposerAtts, slot: nat)
    requires multiset(b) == multiset(Block(a, slot))
    ensures forall x :: x in b ==> x.slot == slot
  {
    forall x | x in b ensures x.slot == slot {
      assert x in multiset(b) && x in multiset(Block(a, slot));
      FilterMember(a, HasSlot(slot), x);
    }
  }

  // The new block is done, and the others are as they were.
  lemma AppendDone(r: ProposerAtts, b: ProposerAtts, slot: nat, a: ProposerAtts, covers: nat -> Cover)
    requires forall x :: x in r ==> x.slot != slot
    requires Reordered(b, Block(a, slot), covers(slot)) && multiset(b) == multiset(Block(a, slot))
    ensures BlockDone(r + b, a, covers, slot)
    ensures forall other :: other != slot && BlockDone(r, a, covers, other) ==> BlockDone(r + b, a, covers, other)
  {
    BlockEntries(b, a, slot);
    AppendBlock(r, b, slot);
    FilterNone(r, HasSlot(slot));
    assert Block(r + b, slot) == b;
  }

  lemma AssembleOrder(
    r: ProposerAtts, b: ProposerAtts, slots: seq<nat>, k: nat, a: ProposerAtts, covers: nat -> Cover)
    requires k < |slots| && Assembled(r, slots, k, a, covers) && Descending(slots)
    requires multiset(b) == multiset(Block(a, slots[k]))
    ensures NonIncreasing(r + b, SlotOf())
    ensures forall x :: x in r ==> x.slot > slots[k]
    ensures forall x :: x in b ==> x.slot == slots[k]
    ensures forall other :: other in slots[..k] ==> other > slots[k]
  {
    assert forall other :: other in slots[..k] ==> other > slots[k];
    assert forall x :: x in r ==> x.slot in slots[..k];
    BlockEntries(b, a, slots[k]);
    AppendKeepsOrder(r, b, slots[k]);
  }

  lemma AssembleStep(
    r: ProposerAtts, b: ProposerAtts, slots: seq<nat>, k: nat, a: ProposerAtts, covers: nat -> Cover)
    requires k < |slots| && Assembled(r, slots, k, a, covers) && Descending(slots)
    requires Reordered(b, Block(a, slots[k]), covers(slots[k])) && multiset(b) == multiset(Block(a, slots[k]))
    ensures Assembled(r + b, slots, k + 1, a, covers)
  {
    var slot := slots[k];
    assert slots[..k + 1] == slots[..k] + [slot];
    AssembleOrder(r, b, slots, k, a, covers);
    AppendDone(r, b, slot, a, covers);
    forall other | other in slots[..k] ensures BlockDone(r + b, a, covers, other) {
      assert BlockDone(r, a, covers, other);
    }
  }

  // A list whose blocks are reordered blocks of a is a permutation of a.
  lemma BlocksPermute(r: ProposerAtts, a: ProposerAtts)
    requires forall slot :: multiset(Block(r, slot)) == multiset(Block(a, slot))
    ensures multiset(r) == multiset(a)
  {
    forall x: Attestation ensures multiset(r)[x] == multiset(a)[x] {
      FilterCount(r, HasSlot(x.slot), x);
      FilterCount(a, HasSlot(x.slot), x);
      assert multiset(Block(r, x.slot)) == multiset(Block(a, x.slot));
    }
  }

  ghost predicate Convertible(slots: seq<nat>, a: ProposerAtts) {
    forall slot :: slot in slots ==> !Unconvertible(Block(a, slot))
  }

  lemma ConvertibleStep(slots: seq<nat>, k: nat, a: ProposerAtts)
    requires k < |slots| && Convertible(slots[..k], a) && !Unconvertible(Block(a, slots[k]))
    ensures Convertible(slots[..k + 1], a)
  {
    assert slots[..k + 1] == slots[..k] + [slots[k]];
  }

  lemma Finished(r: ProposerAtts, slots: seq<nat>, a: ProposerAtts, covers: nat -> Cover)
    requires Assembled(r, slots, |slots|, a, covers) && Convertible(slots, a)
    requires forall slot :: slot !in slots ==> Block(a, slot) == []
    ensures Sorted(r, a, covers)
    ensures !SomeUnconvertible(a)
  {
    assert slots[..|slots|] == slots;
    forall slot: nat
      ensures multiset(Block(r, slot)) == multiset(Block(a, slot)) && Reordered(Block(r, slot), Block(a, slot), covers(slot))
      ensures !Unconvertible(Block(a, slot))
    {
      if slot !in slots {
        FilterNone(r, HasSlot(slot));
      } else {
        assert BlockDone(r, a, covers, slot);
      }
    }
    BlocksPermute(r, a);
  }

  method SortSlots(slots: seq<nat>) returns (r: seq<nat>)
    requires forall p, q :: 0 <= p < q < |slots| ==> slots[p] != slots[q]
    ensures Descending(r)
    ensures forall x :: x in r <==> x in slots
  {
    r := SortSlice(slots, Itself());
    SortKeepsDistinct(slots, r);
  }

  // The last loop: the selected blocks, one slot after the other.
  method ConcatenateBlocks(
    slots: seq<nat>, attsBySlot: map<nat, ProposerAtts>, covers: nat -> Cover, ghost a: ProposerAtts)
    returns (r: Result<ProposerAtts, ConversionError>)
    requires Descending(slots)
    requires forall slot :: slot in slots ==> slot in attsBySlot && attsBySlot[slot] == Block(a, slot)
    ensures r.Ok? ==> Assembled(r.value, slots, |slots|, a, covers) && Convertible(slots, a)
    ensures r.Err? ==> SomeUnconvertible(a)
  {
    var sortedAtts: ProposerAtts := [];
    for k := 0 to |slots|
      invariant Assembled(sortedAtts, slots, k, a, covers)
      invariant Convertible(slots[..k], a)
    {
      var selected := SelectAtts(attsBySlot[slots[k]], covers(slots[k]));
      if selected.Err? {
        assert Unconvertible(Block(a, slots[k]));
        return Err(selected.error);
      }
      AssembleStep(sortedAtts, selected.value, slots, k, a, covers);
      ConvertibleStep(slots, k, a);
      sortedAtts := sortedAtts + selected.value;
    }
    assert slots[..|slots|] == slots;
    return Ok(sortedAtts);
  }

  // covers is what max-cover comes to on the block of each slot.
  method SortByProfitabilityUsingMaxCover(a: ProposerAtts, covers: nat -> Cover)
    returns (r: Result<ProposerAtts, ConversionError>)
    ensures r.Ok? ==> Sorted(r.value, a, covers)
    ensures r.Err? <==> SomeUnconvertible(a)
  {
    var slots, attsBySlot := SeparateBySlot(a);
    slots := SortSlots(slots);
    r := ConcatenateBlocks(slots, attsBySlot, covers, a);
    if r.Ok? {
      Finished(r.value, slots, a, covers);
    }
  }

  function Itself(): nat -> int {
    (slot: nat) => slot
  }

  // A sorted permutation of distinct numbers is strictly descending.
  lemma SortKeepsDistinct(s: seq<nat>, t: seq<nat>)
    requires forall p, q :: 0 <= p < q < |s| ==> s[p] != s[q]
    requires multiset(s) == multiset(t) && NonIncreasing(t, Itself())
    ensures Descending(t)
    ensures forall x :: x in s <==> x in t
  {
    forall x: nat ensures x in s <==> x in t {
      assert x in s <==> x in multiset(s);
      assert x in t <==> x in multiset(t);
    }
    forall p, q | 0 <= p < q < |t| ensures t[p] > t[q] {
      assert Itself()(t[p]) >= Itself()(t[q]);
      DistinctOnce(s, t[p]);
      TwoOccurrences(t, p, q);
    }
  }

  lemma TwoOccurrences(t: seq<nat>, p: nat, q: nat)
    requires p < q < |t|
    ensures t[p] == t[q] ==> multiset(t)[t[p]] >= 2
  {
    assert t == t[..q] + t[q..];
    assert t[p] == t[..q][p] && t[q] == t[q..][0];
    assert t[p] in multiset(t[..q]) && t[q] in multiset(t[q..]);
  }

  lemma {:induction false} DistinctOnce(s: seq<nat>, x: nat)
    requires forall p, q :: 0 <= p < q < |s| ==> s[p] != s[q]
    ensures multiset(s)[x] <= 1
  {
    if s != [] {
      DistinctOnce(s[1..], x);
      assert s == [s[0]] + s[1..];
    }
  }

  method SortByProfitability(a: ProposerAtts, covers: nat -> Cover)
    returns (r: Result<ProposerAtts, ConversionError>)
    ensures r.Ok? ==> Sorted(r.value, a, covers)
    ensures r.Err? <==> SomeUnconvertible(a)
  {
    if |a| < 2 {
      ShortListIsSorted(a, covers);
      return Ok(a);
    }
    r := SortByProfitabilityUsingMaxCover(a, covers);
  }

  lemma ShortListIsSorted(a: ProposerAtts, covers: nat -> Cover)
    requires |a| < 2
    ensures Sorted(a, a, covers) && !SomeUnconvertible(a)
  {
    forall slot: nat ensures |Block(a, slot)| < 2 {
      if |a| == 1 {
        assert a == [] + [a[0]];
        FilterSnoc([], a[0], HasSlot(slot));
      }
    }
  }

  // Where max-cover runs, each of the two runs of a slot's block has the most bits first,
  // and the selected attestations come before all others.
  lemma MostBitsFirst(r: ProposerAtts, a: ProposerAtts, covers: nat -> Cover, slot: nat, p: nat, q: nat)
    requires Sorted(r, a, covers) && |Block(a, slot)| >= 2 && covers(slot).Some?
    ensures |Pick(Block(a, slot), covers(slot).value, |Block(a, slot)|)| <= |Block(r, slot)|
    ensures var b, k := Block(r, slot), |Pick(Block(a, slot), covers(slot).value, |Block(a, slot)|)|;
            p < q < k || k <= p < q < |b| ==> |b[p].aggregationBits.bits| >= |b[q].aggregationBits.bits|
  {
    var b, k := Block(r, slot), |Pick(Block(a, slot), covers(slot).value, |Block(a, slot)|)|;
    assert SelectedFirst(b, Block(a, slot), covers(slot).value);
    if p < q < k {
      assert CountOf()(b[..k][p]) >= CountOf()(b[..k][q]);
    } else if k <= p < q < |b| {
      assert CountOf()(b[k..][p - k]) >= CountOf()(b[k..][q - k]);
    }
  }

  // ---------- The block proposal limit ----------

  function LimitToMaxAttestations(a: ProposerAtts, maxAttestations: nat): ProposerAtts {
    if |a| > maxAttestations then a[..maxAttestations] else a
  }

  // Whatever is cut from a sorted list is not of a later slot than anything kept, and
  // nothing is cut while the list fits.
  lemma LimitKeepsLatestSlots(
    a: ProposerAtts, covers: nat -> Cover, r: ProposerAtts, maxAttestations: nat, kept: Attestation, dropped: Attestation)
    requires Sorted(r, a, covers)
    ensures |LimitToMaxAttestations(r, maxAttestations)| == if |a| <= maxAttestations then |a| else maxAttestations
    ensures LimitToMaxAttestations(r, maxAttestations) <= r
    ensures kept in LimitToMaxAttestations(r, maxAttestations) ==>
              dropped in r[|LimitToMaxAttestations(r, maxAttestations)|..] ==> kept.slot >= dropped.slot
  {
    var l := LimitToMaxAttestations(r, maxAttestations);
    assert |r| == |multiset(r)| == |a|;
    if kept in l && dropped in r[|l|..] {
      var p :| 0 <= p < |l| && l[p] == kept;
      var q :| 0 <= q < |r[|l|..]| && r[|l|..][q] == dropped;
      assert SlotOf()(r[p]) >= SlotOf()(r[|l| + q]);
    }
  }
}
