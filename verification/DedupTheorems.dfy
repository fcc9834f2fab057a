// What the contract of Dedup means: the surviving bit patterns are the maximal ones,
// whatever the order of the input or of the map, and a second run changes nothing.
module DedupTheorems {
  import opened Wrappers
  import opened Attestations
  import opened Deduplication

  ghost predicate HasPattern(s: ProposerAtts, b: Bitlist) {
    exists y :: y in s && y.aggregationBits == b
  }

  // No pattern of the group carries all bits of b and more.
  ghost predicate Maximal(g: ProposerAtts, b: Bitlist) {
    HasPattern(g, b) &&
    forall x :: x in g && x.aggregationBits.length == b.length && b.bits <= x.aggregationBits.bits ==>
      x.aggregationBits == b
  }

  // In an antichain an entry is covered by itself only.
  lemma CoveredAt(s: ProposerAtts, p: nat, q: nat)
    requires Antichain(s) && p < |s| && q < |s| && Covered(s[p], s[q])
    ensures p == q
  {
  }

  lemma CoveredInAntichain(s: ProposerAtts, x: Attestation, y: Attestation)
    requires Antichain(s) && x in s && y in s && Covered(x, y)
    ensures x == y
  {
    var p :| 0 <= p < |s| && s[p] == x;
    var q :| 0 <= q < |s| && s[q] == y;
    CoveredAt(s, p, q);
  }

  lemma MemberOfBound(s: ProposerAtts, g: ProposerAtts, x: Attestation)
    requires multiset(s) <= multiset(g) && x in s
    ensures x in g
  {
    assert x in multiset(s) && x in multiset(g);
  }

  // The survivors' patterns are exactly the maximal ones of the group, each once.
  lemma SurvivorsAreMaximal(s: ProposerAtts, g: ProposerAtts)
    requires Survivors(s, g)
    ensures forall b :: HasPattern(s, b) <==> Maximal(g, b)
    ensures forall p, q :: 0 <= p < q < |s| ==> s[p].aggregationBits != s[q].aggregationBits
  {
    forall b ensures HasPattern(s, b) <==> Maximal(g, b) {
      if HasPattern(s, b) {
        var y :| y in s && y.aggregationBits == b;
        SurvivorIsMaximal(s, g, y);
      }
      if Maximal(g, b) {
        var x :| x in g && x.aggregationBits == b;
        assert CoveredBy(x, s);
        var z :| z in s && Covered(x, z);
        MemberOfBound(s, g, z);
      }
    }
    forall p, q | 0 <= p < q < |s| ensures s[p].aggregationBits != s[q].aggregationBits {
      assert Apart(s[p], s[q]);
    }
  }

  lemma SurvivorIsMaximal(s: ProposerAtts, g: ProposerAtts, y: Attestation)
    requires Survivors(s, g) && y in s
    ensures Maximal(g, y.aggregationBits)
  {
    MemberOfBound(s, g, y);
    forall x | x in g && Covered(y, x) ensures x.aggregationBits == y.aggregationBits {
      assert CoveredBy(x, s);
      var z :| z in s && Covered(x, z);
      CoveredInAntichain(s, y, z);
    }
  }

  // The antichain of a group, seen in the whole list.
  lemma {:induction false} ApartInList(r: ProposerAtts, root: nat, p: nat, q: nat)
    requires Antichain(Group(r, root))
    requires p < q < |r| && r[p].root == r[q].root == Some(root)
    ensures Apart(r[p], r[q])
  {
    var front := r[..|r| - 1];
    var last := r[|r| - 1];
    if q < |r| - 1 {
      if last.root == Some(root) {
        assert Group(r, root) == Group(front, root) + [last];
        forall i, j | 0 <= i < j < |Group(front, root)| ensures Apart(Group(front, root)[i], Group(front, root)[j]) {
          assert Apart(Group(r, root)[i], Group(r, root)[j]);
        }
      }
      ApartInList(front, root, p, q);
    } else {
      var g := Group(front, root);
      assert r == front + [last];
      FilterSnoc(front, last, HasRoot(root));
      assert r[p] == front[p] && front[p] in front;
      FilterMember(front, HasRoot(root), front[p]);
      var m :| 0 <= m < |g| && g[m] == front[p];
      assert Group(r, root)[m] == r[p] && Group(r, root)[|g|] == last;
    }
  }

  type Pattern = (Option<nat>, Bitlist)

  function Patterns(s: ProposerAtts): seq<Pattern> {
    seq(|s|, i requires 0 <= i < |s| => (s[i].root, s[i].aggregationBits))
  }

  lemma {:induction false} DistinctCount<T>(s: seq<T>, x: T)
    requires forall p, q :: 0 <= p < q < |s| ==> s[p] != s[q]
    ensures multiset(s)[x] == if x in s then 1 else 0
  {
    if s != [] {
      DistinctCount(s[..|s| - 1], x);
      assert s == s[..|s| - 1] + [s[|s| - 1]];
    }
  }

  // Counts every pattern of a result by a condition on the input alone.
  lemma PatternCount(r: ProposerAtts, a: ProposerAtts, t: Pattern)
    requires |a| >= 2 && Deduplicated(r, a)
    ensures multiset(Patterns(r))[t] ==
            if t.0.Some? && Maximal(Group(a, t.0.value), t.1) then 1 else 0
  {
    var ps := Patterns(r);
    forall p, q | 0 <= p < q < |ps| ensures ps[p] != ps[q] {
      if ps[p] == ps[q] {
        assert r[p] in r && Survivors(Group(r, r[p].root.value), Group(a, r[p].root.value));
        ApartInList(r, r[p].root.value, p, q);
      }
    }
    DistinctCount(ps, t);
    if t.0.Some? {
      var root := t.0.value;
      assert Survivors(Group(r, root), Group(a, root));
      SurvivorsAreMaximal(Group(r, root), Group(a, root));
      if t in ps {
        var p :| 0 <= p < |ps| && ps[p] == t;
        assert r[p] in r;
        FilterMember(r, HasRoot(root), r[p]);
        assert HasPattern(Group(r, root), t.1);
      }
      if HasPattern(Group(r, root), t.1) {
        var y :| y in Group(r, root) && y.aggregationBits == t.1;
        FilterMember(r, HasRoot(root), y);
        var p :| 0 <= p < |r| && r[p] == y;
        assert ps[p] == t;
      }
    } else {
      forall p | 0 <= p < |ps| ensures ps[p] != t {
        assert r[p] in r;
      }
    }
  }

  // The surviving patterns depend neither on the order of the input nor on the order in
  // which the map yields the roots.
  lemma OrderIndependent(a: ProposerAtts, b: ProposerAtts, r: ProposerAtts, t: ProposerAtts)
    requires multiset(a) == multiset(b)
    requires Deduplicated(r, a) && Deduplicated(t, b)
    ensures multiset(Patterns(r)) == multiset(Patterns(t))
  {
    assert |a| == |multiset(a)| == |multiset(b)| == |b|;
    if |a| < 2 {
      assert |a| == 1 ==> a[0] in multiset(b);
      assert r == t;
    } else {
      forall x: Pattern ensures multiset(Patterns(r))[x] == multiset(Patterns(t))[x] {
        PatternCount(r, a, x);
        PatternCount(t, b, x);
        if x.0.Some? {
          SameMembers(a, b, x.0.value);
          assert Maximal(Group(a, x.0.value), x.1) <==> Maximal(Group(b, x.0.value), x.1);
        }
      }
    }
  }

  lemma SameMembers(a: ProposerAtts, b: ProposerAtts, root: nat)
    requires multiset(a) == multiset(b)
    ensures forall x :: x in Group(a, root) <==> x in Group(b, root)
  {
    forall x ensures x in Group(a, root) <==> x in Group(b, root) {
      FilterMember(a, HasRoot(root), x);
      FilterMember(b, HasRoot(root), x);
      assert x in a <==> x in multiset(a);
      assert x in b <==> x in multiset(b);
    }
  }

  // Nor does it depend on the order of the input whether Dedup fails.
  lemma FailureOrderIndependent(a: ProposerAtts, b: ProposerAtts)
    requires multiset(a) == multiset(b)
    ensures NoMixedGroup(a) <==> NoMixedGroup(b)
  {
    forall root: nat ensures OneLength(Group(a, root)) <==> OneLength(Group(b, root)) {
      SameMembers(a, b, root);
    }
  }

  // A result never makes Dedup fail: the survivors of each root have one length, because
  // they are apart.
  lemma SecondRunSucceeds(a: ProposerAtts, r: ProposerAtts)
    requires Deduplicated(r, a)
    ensures NoMixedGroup(r)
  {
    if |a| < 2 {
      ShortListIsNotMixed(r);
    } else {
      forall root: nat ensures OneLength(Group(r, root)) {
        assert Survivors(Group(r, root), Group(a, root));
        ApartHasOneLength(Group(r, root));
      }
    }
  }

  lemma ApartHasOneLength(s: ProposerAtts)
    requires Antichain(s)
    ensures OneLength(s)
  {
    forall x, y | x in s && y in s ensures SameLength(x, y) {
      var p :| 0 <= p < |s| && s[p] == x;
      var q :| 0 <= q < |s| && s[q] == y;
      if p < q { assert Apart(s[p], s[q]); }
      if q < p { assert Apart(s[q], s[p]); }
    }
  }

  // A second run keeps the same attestations.
  lemma Idempotent(a: ProposerAtts, r: ProposerAtts, again: ProposerAtts)
    requires Deduplicated(r, a) && Deduplicated(again, r)
    ensures multiset(again) == multiset(r)
  {
    if |r| >= 2 && |a| >= 2 {
      forall x | x in multiset(r) ensures multiset(r)[x] <= multiset(again)[x] {
        KeptBySecondRun(a, r, again, x);
      }
    }
  }

  lemma KeptBySecondRun(a: ProposerAtts, r: ProposerAtts, again: ProposerAtts, x: Attestation)
    requires |a| >= 2 && Deduplicated(r, a)
    requires |r| >= 2 && Deduplicated(again, r)
    requires x in r
    ensures multiset(r)[x] <= multiset(again)[x]
  {
    var root := x.root.value;
    var g, s := Group(r, root), Group(again, root);
    assert Survivors(g, Group(a, root)) && Survivors(s, g);
    FilterMember(r, HasRoot(root), x);
    assert CoveredBy(x, s);
    var y :| y in s && Covered(x, y);
    MemberOfBound(s, g, y);
    CoveredInAntichain(g, x, y);
    SurvivorsAreMaximal(g, Group(a, root));
    DistinctCount(g, x);
    FilterCount(r, HasRoot(root), x);
    FilterCount(again, HasRoot(root), x);
    assert multiset(s)[x] >= 1;
  }

  // Below two entries nothing is dropped, not even an attestation without a data root;
  // from two on, such an attestation is never in the result.
  lemma Unhashable(a: ProposerAtts, r: ProposerAtts, x: Attestation)
    requires Deduplicated(r, a) && x in a && x.root == None
    ensures x in r <==> |a| < 2
  {
  }
}
