// ProposerAtts.Dedup: within each data root, drop every attestation whose bits are
// carried by another one.
module Deduplication {
  import opened Wrappers
  import opened Attestations

  // ---------- What the result has to be ----------

  // Two attestations of one length, neither of which makes the other redundant.
  predicate Apart(x: Attestation, y: Attestation) {
    SameLength(x, y) && !Covered(x, y) && !Covered(y, x)
  }

  ghost predicate Antichain(s: ProposerAtts) {
    forall p, q :: 0 <= p < q < |s| ==> Apart(s[p], s[q])
  }

  ghost predicate CoveredBy(x: Attestation, s: ProposerAtts) {
    exists y :: y in s && Covered(x, y)
  }

  ghost predicate CoversAll(s: ProposerAtts, g: ProposerAtts) {
    forall x :: x in g ==> CoveredBy(x, s)
  }

  ghost predicate OneLength(g: ProposerAtts) {
    forall x, y :: x in g && y in g ==> SameLength(x, y)
  }

  // s is what may remain of the group g.
  ghost predicate Survivors(s: ProposerAtts, g: ProposerAtts) {
    multiset(s) <= multiset(g) && Antichain(s) && CoversAll(s, g)
  }

  // r is a correct answer for the list a: lists below two entries are returned untouched,
  // otherwise unhashable entries are gone and every data root keeps its survivors.
  ghost predicate Deduplicated(r: ProposerAtts, a: ProposerAtts) {
    if |a| < 2 then r == a
    else
      && multiset(r) <= multiset(a)
      && (forall x :: x in r ==> x.root.Some?)
      && (forall root :: Survivors(Group(r, root), Group(a, root)))
  }

  ghost predicate NoMixedGroup(a: ProposerAtts) {
    forall root :: OneLength(Group(a, root))
  }

  // ---------- Removal of one entry ----------

  // Move the last entry to index k and cut the list by one.
  function SwapRemove(s: ProposerAtts, k: nat): (r: ProposerAtts)
    requires k < |s|
    ensures |r| == |s| - 1
    ensures forall m :: 0 <= m < |r| ==> r[m] == if m == k then s[|s| - 1] else s[m]
    ensures multiset(r) == multiset(s) - multiset{s[k]}
  {
    var last := |s| - 1;
    assert s == s[..last] + [s[last]];
    if k < last then
      assert s[..last] == s[..k] + [s[k]] + s[k + 1..last];
      assert s[..last][k := s[last]] == s[..k] + [s[last]] + s[k + 1..last];
      s[..last][k := s[last]]
    else s[..last]
  }

  // The part of the survivors' contract that every removal keeps.
  ghost predicate Sound(s: ProposerAtts, g: ProposerAtts) {
    multiset(s) <= multiset(g) && CoversAll(s, g)
  }

  // Whatever was covered by the removed entry is covered by its keeper.
  lemma StillCovered(s: ProposerAtts, k: nat, keeper: nat, m: nat, x: Attestation)
    requires k < |s| && keeper < |s| && k != keeper && m < |s|
    requires Covered(s[k], s[keeper]) && Covered(x, s[m])
    ensures CoveredBy(x, SwapRemove(s, k))
  {
    var at := if m == k then keeper else m;
    var r := SwapRemove(s, k);
    assert r[if at == |s| - 1 then k else at] == s[at];
    assert Covered(x, s[at]);
  }

  // Removing a redundant entry keeps every promise about the rest of the group.
  lemma RemoveRedundant(s: ProposerAtts, k: nat, keeper: nat, g: ProposerAtts)
    requires k < |s| && keeper < |s| && k != keeper
    requires Covered(s[k], s[keeper]) && Sound(s, g)
    ensures Sound(SwapRemove(s, k), g)
  {
    forall x | x in g ensures CoveredBy(x, SwapRemove(s, k)) {
      assert CoveredBy(x, s);
      var y :| y in s && Covered(x, y);
      var m :| 0 <= m < |s| && s[m] == y;
      StillCovered(s, k, keeper, m, x);
    }
  }

  // A finished group has one length: survivors were compared with each other, and each
  // entry has the length of the survivor covering it.
  lemma SurvivorsHaveOneLength(s: ProposerAtts, g: ProposerAtts)
    requires Survivors(s, g)
    ensures OneLength(g)
  {
    forall x, y | x in g && y in g ensures SameLength(x, y) {
      assert CoveredBy(x, s) && CoveredBy(y, s);
      var x' :| x' in s && Covered(x, x');
      var y' :| y' in s && Covered(y, y');
      var p :| 0 <= p < |s| && s[p] == x';
      var q :| 0 <= q < |s| && s[q] == y';
      if p < q { assert Apart(s[p], s[q]); }
      if q < p { assert Apart(s[q], s[p]); }
    }
  }

  // ---------- The algorithm ----------

  // The array holds the live list s in its first |s| slots and nil behind it.
  ghost predicate Holds(atts: array<Option<Attestation>>, s: ProposerAtts)
    reads atts
  {
    && |s| <= atts.Length
    && (forall k :: 0 <= k < |s| ==> atts[k] == Some(s[k]))
    && (forall k :: |s| <= k < atts.Length ==> atts[k] == None)
  }

  // The entries of p[..i] are apart from everything behind them.
  ghost predicate Settled(s: ProposerAtts, i: int) {
    forall p, q :: 0 <= p < i && p < q < |s| ==> Apart(s[p], s[q])
  }

  // Entry i has been compared with the entries between it and j.
  ghost predicate Compared(s: ProposerAtts, i: nat, j: int) {
    i < |s| && forall q :: i < q < j && q < |s| ==> Apart(s[i], s[q])
  }

  lemma SettledAfterRemove(s: ProposerAtts, i: nat, k: nat)
    requires i <= k < |s| && Settled(s, i)
    ensures Settled(SwapRemove(s, k), i)
  {
  }

  lemma MixedPair(s: ProposerAtts, g: ProposerAtts, x: Attestation, y: Attestation)
    requires Sound(s, g) && x in s && y in s && !SameLength(x, y)
    ensures !OneLength(g)
  {
    assert x in multiset(s) && y in multiset(s);
    assert x in g && y in g;
  }

  // Both removals of the loop body: overwrite slot k with the last entry, clear the last.
  method RemoveAt(atts: array<Option<Attestation>>, n: nat, k: nat, ghost s: ProposerAtts)
    requires Holds(atts, s) && k < n == |s|
    modifies atts
    ensures Holds(atts, SwapRemove(s, k))
  {
    atts[k] := atts[n - 1];
    atts[n - 1] := None;
  }

  // Both loops over one group, in place. n is the length of the list that remains.
  method DedupGroup(atts: array<Option<Attestation>>, ghost g: ProposerAtts)
    returns (n: nat, ok: bool, ghost s: ProposerAtts)
    requires |g| == atts.Length && Holds(atts, g)
    modifies atts
    ensures |s| == n && Holds(atts, s)
    ensures ok ==> Survivors(s, g)
    ensures ok <==> OneLength(g)
  {
    n, s := atts.Length, g;
    assert CoversAll(s, g) by {
      forall x | x in g ensures CoveredBy(x, s) { assert x in s && Covered(x, x); }
    }
    var i := 0;
    while i < n
      invariant 0 <= i <= n == |s|
      invariant Holds(atts, s) && Sound(s, g) && Settled(s, i)
      decreases n, n - i
    {
      var a := atts[i].value;
      var j := i + 1;
      ghost var i0, n0 := i, n;
      while j < n
        invariant i == i0 < j <= n == |s| <= n0
        invariant Holds(atts, s) && s[i] == a
        invariant Sound(s, g) && Settled(s, i) && Compared(s, i, j)
        decreases n - j
      {
        var b := atts[j].value;
        var c := a.aggregationBits.Contains(b.aggregationBits);
        if c.None? {
          MixedPair(s, g, a, b);
          return n, false, s;
        } else if c.value {
          RemoveRedundant(s, j, i, g);
          SettledAfterRemove(s, i, j);
          RemoveAt(atts, n, j, s);
          s := SwapRemove(s, j);
          n := n - 1;
          j := j - 1;
        } else {
          c := b.aggregationBits.Contains(a.aggregationBits);
          if c.None? {
            assert false;
          } else if c.value {
            RemoveRedundant(s, i, j, g);
            SettledAfterRemove(s, i, i);
            RemoveAt(atts, n, i, s);
            s := SwapRemove(s, i);
            n := n - 1;
            i := i - 1;
            break;
          }
        }
        j := j + 1;
      }
      i := i + 1;
    }
    ok := true;
    assert Antichain(s);
    SurvivorsHaveOneLength(s, g);
  }

  datatype BitlistError = ErrBitlistDifferentLength

  // The map's entry for a root, or nothing.
  function Entry(m: map<nat, ProposerAtts>, root: nat): ProposerAtts {
    if root in m then m[root] else []
  }

  lemma ShortListIsNotMixed(a: ProposerAtts)
    requires |a| < 2
    ensures NoMixedGroup(a)
  {
    forall root, x, y | x in Group(a, root) && y in Group(a, root) ensures SameLength(x, y) {
      FilterMember(a, HasRoot(root), x);
      FilterMember(a, HasRoot(root), y);
    }
  }

  // Appending the survivors of one root changes that root's group only.
  lemma AppendSurvivors(uniq: ProposerAtts, s: ProposerAtts, root: nat)
    requires forall x :: x in s ==> x.root == Some(root)
    ensures Group(uniq + s, root) == Group(uniq, root) + s
    ensures forall other :: other != root ==> Group(uniq + s, other) == Group(uniq, other)
  {
    FilterConcat(uniq, s, HasRoot(root));
    FilterAll(s, HasRoot(root));
    forall other | other != root ensures Group(uniq + s, other) == Group(uniq, other) {
      FilterConcat(uniq, s, HasRoot(other));
      FilterNone(s, HasRoot(other));
    }
  }

  lemma GroupBounds(r: ProposerAtts, a: ProposerAtts)
    requires forall x :: x in r ==> x.root.Some?
    requires forall root :: multiset(Group(r, root)) <= multiset(Group(a, root))
    ensures multiset(r) <= multiset(a)
  {
    forall x | x in multiset(r) ensures multiset(r)[x] <= multiset(a)[x] {
      assert x in r;
      var root := x.root.value;
      FilterCount(r, HasRoot(root), x);
      FilterCount(a, HasRoot(root), x);
      assert multiset(Group(r, root)) <= multiset(Group(a, root));
    }
  }

  // The first loop: unhashable attestations are skipped.
  method GroupByRoot(a: array<Attestation>) returns (attsByDataRoot: map<nat, ProposerAtts>)
    ensures forall root :: Entry(attsByDataRoot, root) == Group(a[..], root)
  {
    attsByDataRoot := map[];
    for k := 0 to a.Length
      invariant forall root :: Entry(attsByDataRoot, root) == Group(a[..k], root)
    {
      var att := a[k];
      assert a[..k + 1] == a[..k] + [att];
      forall root: nat
        ensures Group(a[..k + 1], root) == Group(a[..k], root) + if att.root == Some(root) then [att] else []
      {
        FilterSnoc(a[..k], att, HasRoot(root));
      }
      if att.root.Some? {
        attsByDataRoot := attsByDataRoot[att.root.value := Entry(attsByDataRoot, att.root.value) + [att]];
      }
    }
    assert a[..a.Length] == a[..];
  }

  // One turn of the second loop: the group is copied out, reduced and read back.
  method DedupRoot(group: ProposerAtts) returns (r: Result<ProposerAtts, BitlistError>)
    ensures r.Ok? ==> Survivors(r.value, group)
    ensures r.Ok? <==> OneLength(group)
  {
    var atts := new Option<Attestation>[|group|](i requires 0 <= i < |group| => Some(group[i]));
    var n, ok, s := DedupGroup(atts, group);
    if !ok {
      return Err(ErrBitlistDifferentLength);
    }
    var live := seq(n, i requires 0 <= i < n <= atts.Length && atts[i].Some? reads atts => atts[i].value);
    assert live == s;
    return Ok(live);
  }

  // uniq holds the survivors of every root but the pending ones.
  ghost predicate DoneExcept(uniq: ProposerAtts, a: ProposerAtts, pending: set<nat>) {
    && (forall x :: x in uniq ==> x.root.Some?)
    && (forall root :: root in pending ==> Group(uniq, root) == [])
    && (forall root :: root !in pending ==> Survivors(Group(uniq, root), Group(a, root)))
  }

  lemma DoneStart(a: ProposerAtts, m: map<nat, ProposerAtts>)
    requires forall root :: Entry(m, root) == Group(a, root)
    ensures DoneExcept([], a, m.Keys)
  {
    forall root: nat | root !in m ensures Survivors(Group([], root), Group(a, root)) {
      assert Entry(m, root) == [];
    }
  }

  lemma DoneStep(uniq: ProposerAtts, s: ProposerAtts, a: ProposerAtts, pending: set<nat>, root: nat)
    requires DoneExcept(uniq, a, pending) && root in pending
    requires Survivors(s, Group(a, root))
    ensures DoneExcept(uniq + s, a, pending - {root})
  {
    forall x | x in s ensures x.root == Some(root) {
      assert x in multiset(s) && x in multiset(Group(a, root));
      FilterMember(a, HasRoot(root), x);
    }
    AppendSurvivors(uniq, s, root);
    assert Group(uniq + s, root) == s;
    forall other: nat | other !in pending
      ensures Survivors(Group(uniq + s, other), Group(a, other))
    {
      assert Group(uniq + s, other) == Group(uniq, other);
    }
  }

  lemma DoneEnd(uniq: ProposerAtts, a: ProposerAtts)
    requires |a| >= 2 && DoneExcept(uniq, a, {})
    ensures Deduplicated(uniq, a) && NoMixedGroup(a)
  {
    GroupBounds(uniq, a);
    forall root: nat ensures OneLength(Group(a, root)) {
      SurvivorsHaveOneLength(Group(uniq, root), Group(a, root));
    }
  }

  // Map iteration takes the roots in an arbitrary order. The result is right, and there
  // is one, exactly when no data root mixes bitlist lengths. Nothing is modified: the
  // swapping is done in the arrays of the groups, and the input array keeps its entries.
  method Dedup(a: array<Attestation>) returns (r: Result<ProposerAtts, BitlistError>)
    ensures r.Ok? ==> Deduplicated(r.value, a[..])
    ensures r.Ok? <==> NoMixedGroup(a[..])
  {
    ghost var input := a[..];
    if a.Length < 2 {
      ShortListIsNotMixed(input);
      return Ok(a[..]);
    }
    var attsByDataRoot := GroupByRoot(a);
    var uniqAtts: ProposerAtts := [];
    var pending := attsByDataRoot.Keys;
    DoneStart(input, attsByDataRoot);
    while pending != {}
      invariant pending <= attsByDataRoot.Keys && DoneExcept(uniqAtts, input, pending)
      invariant a[..] == input
    {
      var root :| root in pending;
      assert Entry(attsByDataRoot, root) == Group(input, root);
      var s := DedupRoot(attsByDataRoot[root]);
      if s.Err? {
        return Err(s.error);
      }
      DoneStep(uniqAtts, s.value, input, pending, root);
      uniqAtts := uniqAtts + s.value;
      pending := pending - {root};
    }
    DoneEnd(uniqAtts, input);
    return Ok(uniqAtts);
  }
}
