/** What routing guarantees for every request and every list of candidates. */
module RouterSafety {
  import opened Router

  ghost predicate DistinctIds(s: seq<Candidate>) {
    forall i, j :: 0 <= i < j < |s| ==> s[i].id != s[j].id
  }

  ghost predicate Sorted(p: Policy, q: Query, s: seq<Candidate>) {
    forall i, j :: 0 <= i < j < |s| ==> Better(p, q, s[i], s[j])
  }

  // ----- Permutations

  lemma SameElements(s: seq<Candidate>, t: seq<Candidate>, c: Candidate)
    requires multiset(s) == multiset(t)
    ensures c in s <==> c in t
  {
    assert c in s <==> c in multiset(s);
    assert c in t <==> c in multiset(t);
  }

  lemma DistinctElements(s: seq<Candidate>, c: Candidate, d: Candidate)
    requires DistinctIds(s) && c in s && d in s && c.id == d.id
    ensures c == d
  {
    var i :| 0 <= i < |s| && s[i] == c;
    var j :| 0 <= j < |s| && s[j] == d;
  }

  lemma MemberAt<T>(s: seq<T>, j: int)
    ensures 0 <= j < |s| ==> s[j] in s
  {
  }

  /** Every candidate once, and one candidate per identifier. */
  ghost predicate OnePerId(m: multiset<Candidate>) {
    && (forall c :: c in m ==> m[c] == 1)
    && (forall c, d :: c in m && d in m && c.id == d.id ==> c == d)
  }

  lemma {:induction false} Twice(s: seq<Candidate>, i: int, j: int)
    ensures 0 <= i < j < |s| && s[i] == s[j] ==> multiset(s)[s[i]] >= 2
  {
    if 0 <= i < j < |s| && s[i] == s[j] {
      assert s == s[..j] + s[j..] && s[i] in s[..j] && s[j] in s[j..];
      assert multiset(s) == multiset(s[..j]) + multiset(s[j..]);
    }
  }

  lemma {:induction false} DistinctCountsOnce(s: seq<Candidate>, c: Candidate)
    requires DistinctIds(s)
    ensures c in s ==> multiset(s)[c] == 1
    decreases |s|
  {
    if s != [] {
      assert s == [s[0]] + s[1..];
      assert multiset(s) == multiset{s[0]} + multiset(s[1..]);
      DistinctCountsOnce(s[1..], c);
      assert s[0] !in s[1..];
    }
  }

  /** Distinctness of identifiers does not depend on order. */
  lemma DistinctByMultiset(s: seq<Candidate>)
    ensures DistinctIds(s) <==> OnePerId(multiset(s))
  {
    if DistinctIds(s) {
      forall c | c in multiset(s) ensures multiset(s)[c] == 1 { DistinctCountsOnce(s, c); }
      forall c, d | c in multiset(s) && d in multiset(s) && c.id == d.id ensures c == d { DistinctElements(s, c, d); }
    }
    if OnePerId(multiset(s)) {
      forall i, j | 0 <= i < j < |s| ensures s[i].id != s[j].id {
        assert s[i] in multiset(s) && s[j] in multiset(s);
        Twice(s, i, j);
      }
    }
  }

  lemma DistinctUnderPermutation(s: seq<Candidate>, t: seq<Candidate>)
    requires multiset(s) == multiset(t)
    ensures DistinctIds(s) <==> DistinctIds(t)
  {
    DistinctByMultiset(s);
    DistinctByMultiset(t);
  }

  // ----- The scan

  ghost predicate Accepts(p: Policy, q: Query, s: seq<Candidate>, c: Candidate) {
    c in s && Compliant(p, q, c)
  }

  /** The scan succeeds exactly on distinct ids, and splits the candidates by the hard filters, keeping their order. */
  lemma {:induction false} ScanSplits(p: Policy, q: Query, s: seq<Candidate>)
    ensures ScanAll(p, q, s).Scanned? <==> DistinctIds(s)
    ensures ScanAll(p, q, s).Scanned? ==>
      && DistinctIds(ScanAll(p, q, s).accepted)
      && (forall c :: c in ScanAll(p, q, s).accepted <==> Accepts(p, q, s, c))
      && (forall r :: r in ScanAll(p, q, s).rejected <==> RejectedFrom(p, q, s, r))
    decreases |s|
  {
    if s != [] {
      var front, last := s[..|s| - 1], s[|s| - 1];
      assert s == front + [last];
      ScanSplits(p, q, front);
      AcceptedIsCompliant(p, q, last);
      assert forall c :: c in s <==> c in front || c == last;
      if DistinctIds(s) {
        assert DistinctIds(front);
        assert last.id !in Ids(front);
      }
      if ScanAll(p, q, s).Scanned? {
        ScanStep(p, q, front, last);
      }
    }
  }

  ghost predicate RejectedFrom(p: Policy, q: Query, s: seq<Candidate>, r: Rejected) {
    exists c :: c in s && !Compliant(p, q, c) && r == Rejected(c.id, Reasons(p, q, c))
  }

  lemma ScanStep(p: Policy, q: Query, front: seq<Candidate>, last: Candidate)
    requires ScanAll(p, q, front).Scanned? && DistinctIds(front) && last.id !in Ids(front)
    requires DistinctIds(ScanAll(p, q, front).accepted)
    requires forall c :: c in ScanAll(p, q, front).accepted <==> Accepts(p, q, front, c)
    requires forall r :: r in ScanAll(p, q, front).rejected <==> RejectedFrom(p, q, front, r)
    ensures DistinctIds(front + [last])
    ensures ScanAll(p, q, front + [last]).Scanned?
    ensures DistinctIds(ScanAll(p, q, front + [last]).accepted)
    ensures forall c :: c in ScanAll(p, q, front + [last]).accepted <==> Accepts(p, q, front + [last], c)
    ensures forall r :: r in ScanAll(p, q, front + [last]).rejected <==> RejectedFrom(p, q, front + [last], r)
  {
    hide Compliant, Reasons;
    var s := front + [last];
    assert s[..|s| - 1] == front;
    AcceptedIsCompliant(p, q, last);
    var scan := ScanAll(p, q, front);
    assert forall c :: c in scan.accepted ==> c.id in Ids(front);
    forall r ensures RejectedFrom(p, q, s, r) <==>
      RejectedFrom(p, q, front, r) || (!Compliant(p, q, last) && r == Rejected(last.id, Reasons(p, q, last)))
    {
      if c :| c in front && !Compliant(p, q, c) && r == Rejected(c.id, Reasons(p, q, c)) {
        assert c in s;
      }
      assert last in s;
    }
    forall c ensures Accepts(p, q, s, c) <==> Accepts(p, q, front, c) || (c == last && Compliant(p, q, last)) {
    }
  }

  // ----- Sorting

  lemma {:induction false} InsertSorts(p: Policy, q: Query, c: Candidate, s: seq<Candidate>)
    requires Sorted(p, q, s) && forall d :: d in s ==> d.id != c.id
    ensures Sorted(p, q, Insert(p, q, c, s))
    decreases |s|
  {
    if s != [] {
      BetterIsStrictTotal(p, q, c, s[0], s[0]);
      if Better(p, q, s[0], c) {
        InsertSorts(p, q, c, s[1..]);
        var r := Insert(p, q, c, s[1..]);
        forall j | 0 <= j < |r| ensures Better(p, q, s[0], r[j]) {
          assert r[j] in multiset(r);
          assert r[j] == c || r[j] in s[1..];
        }
      } else {
        forall j | 0 <= j < |s| ensures Better(p, q, c, s[j]) {
          BetterIsStrictTotal(p, q, c, s[0], s[j]);
        }
      }
    }
  }

  lemma {:induction false} SortSorts(p: Policy, q: Query, s: seq<Candidate>)
    requires DistinctIds(s)
    ensures Sorted(p, q, Sort(p, q, s))
    decreases |s|
  {
    if s != [] {
      SortSorts(p, q, s[1..]);
      forall d | d in Sort(p, q, s[1..]) ensures d.id != s[0].id {
        SameElements(Sort(p, q, s[1..]), s[1..], d);
        var k :| 0 <= k < |s[1..]| && s[1..][k] == d;
        assert s[k + 1] == d;
      }
      InsertSorts(p, q, s[0], Sort(p, q, s[1..]));
    }
  }

  lemma SortedHead(p: Policy, q: Query, s: seq<Candidate>, c: Candidate)
    requires Sorted(p, q, s) && s != []
    ensures c in s[1..] <==> c in s && c != s[0]
    ensures c in s ==> c == s[0] || Better(p, q, s[0], c)
  {
    BetterIsStrictTotal(p, q, s[0], c, s[0]);
    assert s == [s[0]] + s[1..];
    if c in s[1..] {
      var k :| 0 <= k < |s[1..]| && s[1..][k] == c;
      assert Better(p, q, s[0], s[k + 1]);
    }
  }

  /** A sorted arrangement is unique. */
  lemma {:induction false} SortedUnique(p: Policy, q: Query, s: seq<Candidate>, t: seq<Candidate>)
    requires Sorted(p, q, s) && Sorted(p, q, t) && forall c :: c in s <==> c in t
    ensures s == t
    decreases |s|
  {
    MemberAt(s, 0);
    MemberAt(t, 0);
    if s != [] && t != [] {
      SortedHead(p, q, s, t[0]);
      SortedHead(p, q, t, s[0]);
      BetterIsStrictTotal(p, q, s[0], t[0], s[0]);
      assert s[0] == t[0];
      forall c ensures c in s[1..] <==> c in t[1..] {
        SortedHead(p, q, s, c);
        SortedHead(p, q, t, c);
      }
      SortedUnique(p, q, s[1..], t[1..]);
      assert s == [s[0]] + s[1..] && t == [t[0]] + t[1..];
    }
  }

  lemma SortByElements(p: Policy, q: Query, s: seq<Candidate>, t: seq<Candidate>)
    requires DistinctIds(s) && DistinctIds(t) && forall c :: c in s <==> c in t
    ensures Sort(p, q, s) == Sort(p, q, t)
  {
    SortSorts(p, q, s);
    SortSorts(p, q, t);
    forall c ensures c in Sort(p, q, s) <==> c in Sort(p, q, t) {
      SameElements(Sort(p, q, s), s, c);
      SameElements(Sort(p, q, t), t, c);
    }
    SortedUnique(p, q, Sort(p, q, s), Sort(p, q, t));
  }

  // ----- Explicit choice

  lemma {:induction false} WithoutElements(s: seq<Candidate>, id: string)
    ensures forall c :: c in Without(s, id) <==> c in s && c.id != id
    ensures DistinctIds(s) ==> DistinctIds(Without(s, id))
    decreases |s|
  {
    if s != [] {
      assert s == [s[0]] + s[1..];
      WithoutElements(s[1..], id);
      if DistinctIds(s) {
        assert DistinctIds(s[1..]);
        var r := Without(s[1..], id);
        forall k | 0 <= k < |r| ensures r[k].id != s[0].id {
          assert r[k] in r;
          var m :| 0 <= m < |s[1..]| && s[1..][m] == r[k];
          assert s[m + 1] == r[k];
        }
      }
    }
  }

  lemma {:induction false} WithIdFinds(s: seq<Candidate>, id: string)
    ensures WithId(s, id).Some? ==> WithId(s, id).value in s && WithId(s, id).value.id == id
    ensures WithId(s, id).None? ==> forall c :: c in s ==> c.id != id
    decreases |s|
  {
    if s != [] {
      assert s == [s[0]] + s[1..];
      WithIdFinds(s[1..], id);
    }
  }

  /** The trial order depends only on which candidates were accepted. */
  lemma OrderedByElements(p: Policy, q: Query, s: seq<Candidate>, t: seq<Candidate>)
    requires DistinctIds(s) && DistinctIds(t) && forall c :: c in s <==> c in t
    ensures Ordered(p, q, s) == Ordered(p, q, t)
  {
    match Explicit(q)
    case None => SortByElements(p, q, s, t);
    case Some(id) =>
      WithIdFinds(s, id);
      WithIdFinds(t, id);
      WithoutElements(s, id);
      WithoutElements(t, id);
      if WithId(s, id).Some? && WithId(t, id).Some? {
        DistinctElements(s, WithId(s, id).value, WithId(t, id).value);
        SortByElements(p, q, Without(s, id), Without(t, id));
      }
  }

  ghost predicate SameRejections(r: seq<Rejected>, t: seq<Rejected>) {
    forall x :: x in r <==> x in t
  }

  /**
   Routing does not depend on the order of the candidates: any permutation
   selects the same model with the same fallbacks and rejections, or fails too.
   */
  lemma RoutingIgnoresOrder(p: Policy, q: Query, s: seq<Candidate>, t: seq<Candidate>)
    requires multiset(s) == multiset(t)
    ensures Route(p, q, s).Routed? <==> Route(p, q, t).Routed?
    ensures Route(p, q, s).Routed? ==>
      && Route(p, q, s).decision.selected == Route(p, q, t).decision.selected
      && Route(p, q, s).decision.chain == Route(p, q, t).decision.chain
      && SameRejections(Route(p, q, s).decision.rejected, Route(p, q, t).decision.rejected)
    ensures Route(p, q, s).Refused? && DistinctIds(s) ==>
      && Route(p, q, s).failure == Route(p, q, t).failure
      && SameRejections(Route(p, q, s).rejected, Route(p, q, t).rejected)
  {
    DistinctUnderPermutation(s, t);
    ScanSplits(p, q, s);
    ScanSplits(p, q, t);
    if DistinctIds(s) {
      forall c ensures Accepts(p, q, s, c) <==> Accepts(p, q, t, c) { SameElements(s, t, c); }
      forall r ensures RejectedFrom(p, q, s, r) <==> RejectedFrom(p, q, t, r) {
        if c :| c in s && !Compliant(p, q, c) && r == Rejected(c.id, Reasons(p, q, c)) { SameElements(s, t, c); }
        if c :| c in t && !Compliant(p, q, c) && r == Rejected(c.id, Reasons(p, q, c)) { SameElements(s, t, c); }
      }
      OrderedByElements(p, q, ScanAll(p, q, s).accepted, ScanAll(p, q, t).accepted);
    }
  }

  // ----- The chain

  lemma {:induction false} KeepFilters(s: seq<Candidate>, localOnly: bool)
    ensures forall c :: c in Keep(s, localOnly) <==> c in s && (localOnly ==> c.local)
    decreases |s|
  {
    if s != [] {
      assert s == [s[0]] + s[1..];
      KeepFilters(s[1..], localOnly);
    }
  }

  lemma {:induction false} KeepSorted(p: Policy, q: Query, s: seq<Candidate>, localOnly: bool)
    requires Sorted(p, q, s)
    ensures Sorted(p, q, Keep(s, localOnly))
    decreases |s|
  {
    if s != [] {
      KeepSorted(p, q, s[1..], localOnly);
      KeepFilters(s[1..], localOnly);
      var r := Keep(s[1..], localOnly);
      forall k | 0 <= k < |r| ensures Better(p, q, s[0], r[k]) {
        assert r[k] in r;
        var m :| 0 <= m < |s[1..]| && s[1..][m] == r[k];
        assert s[m + 1] == r[k];
      }
    }
  }

  /** May `c` stand in for `selected` at all? */
  predicate LocalityAllows(p: Policy, selected: Candidate, c: Candidate) {
    p.allowCloudEscalation || !selected.local || c.local
  }

  /** The order after the winner: sorted, disjoint from the winner, and complete. */
  lemma OrderedShape(p: Policy, q: Query, s: seq<Candidate>)
    requires DistinctIds(s) && Ordered(p, q, s) != []
    ensures var o := Ordered(p, q, s);
      && Sorted(p, q, o[1..])
      && o[0] in s
      && (forall c :: c in o[1..] <==> c in s && c != o[0])
      && (Explicit(q).None? ==> forall c :: c in s && c != o[0] ==> Better(p, q, o[0], c))
      && (Explicit(q).Some? ==> o[0].id == Explicit(q).value)
  {
    var o := Ordered(p, q, s);
    match Explicit(q) {
      case None =>
        SortSorts(p, q, s);
        assert o == [o[0]] + o[1..];
        forall c ensures c in o <==> c in s { SameElements(o, s, c); }
        forall c | c in o && c != o[0] ensures c in o[1..] && Better(p, q, o[0], c) {
          var k :| 0 <= k < |o| && o[k] == c;
          assert o[1..][k - 1] == c;
        }
        forall c | c in o[1..] ensures c != o[0] {
          var k :| 0 <= k < |o[1..]| && o[1..][k] == c;
          assert o[k + 1] == c;
          BetterIsStrictTotal(p, q, o[0], c, c);
        }
      case Some(id) =>
        WithIdFinds(s, id);
        WithoutElements(s, id);
        SortSorts(p, q, Without(s, id));
        assert o[1..] == Sort(p, q, Without(s, id));
        forall c ensures c in o[1..] <==> c in s && c != o[0] {
          SameElements(o[1..], Without(s, id), c);
          if c in s && c.id == id { DistinctElements(s, c, o[0]); }
        }
    }
  }

  /** A prefix of a sorted selection keeps the best: whatever it drops scores worse. */
  lemma PrefixKeepsBest(p: Policy, q: Query, kept: seq<Candidate>, chain: seq<Candidate>)
    requires Sorted(p, q, kept) && chain <= kept
    ensures Sorted(p, q, chain)
    ensures forall c, f :: c in kept && c !in chain && f in chain ==> Better(p, q, f, c)
  {
    forall i, j | 0 <= i < j < |chain| ensures Better(p, q, chain[i], chain[j]) {
      assert Better(p, q, kept[i], kept[j]);
    }
    forall c, f | c in kept && c !in chain && f in chain ensures Better(p, q, f, c) {
      var i :| 0 <= i < |chain| && chain[i] == f;
      var j :| 0 <= j < |kept| && kept[j] == c;
      MemberAt(chain, j);
      assert Better(p, q, kept[i], kept[j]);
    }
  }

  lemma SortedIsDistinct(p: Policy, q: Query, s: seq<Candidate>, chain: seq<Candidate>)
    requires DistinctIds(s) && Sorted(p, q, chain) && forall c :: c in chain ==> c in s
    ensures DistinctIds(chain)
  {
    forall i, j | 0 <= i < j < |chain| ensures chain[i].id != chain[j].id {
      BetterIsStrictTotal(p, q, chain[i], chain[j], chain[i]);
      assert chain[i] in s && chain[j] in s;
      assert Better(p, q, chain[i], chain[j]);
      if chain[i].id == chain[j].id { DistinctElements(s, chain[i], chain[j]); }
    }
  }

  lemma ConsDistinct(s: seq<Candidate>, c: Candidate, chain: seq<Candidate>)
    requires DistinctIds(s) && c in s && DistinctIds(chain) && forall d :: d in chain ==> d in s && d != c
    ensures DistinctIds([c] + chain)
  {
    forall k | 0 <= k < |chain| ensures chain[k].id != c.id {
      assert chain[k] in chain;
      if chain[k].id == c.id { DistinctElements(s, chain[k], c); }
    }
  }

  /** The fallbacks are a prefix of what the locality rule keeps of the remaining order. */
  lemma FallbacksShape(p: Policy, selected: Candidate, rest: seq<Candidate>) returns (kept: seq<Candidate>)
    requires p.maxAttempts >= 1
    ensures kept == Keep(rest, !p.allowCloudEscalation && selected.local)
    ensures Fallbacks(p, selected, rest) <= kept && |Fallbacks(p, selected, rest)| + 1 <= p.maxAttempts
    ensures forall c :: c in kept <==> c in rest && LocalityAllows(p, selected, c)
    ensures forall c :: c in Fallbacks(p, selected, rest) ==> c in kept
  {
    kept := Keep(rest, !p.allowCloudEscalation && selected.local);
    KeepFilters(rest, !p.allowCloudEscalation && selected.local);
    var chain := Fallbacks(p, selected, rest);
    forall k | 0 <= k < |chain| ensures chain[k] in kept { assert chain[k] == kept[k]; }
  }

  /**
   The chain that will be tried: it is bounded, starts with the selected model,
   has distinct members that pass every hard filter, respects locality, and
   leaves out nothing better than what it keeps.
   */
  lemma ChainIsSound(p: Policy, q: Query, s: seq<Candidate>)
    requires Route(p, q, s).Routed? && p.maxAttempts >= 1
    ensures var d := Route(p, q, s).decision; var tried := [d.selected] + d.chain;
      && |tried| <= p.maxAttempts
      && DistinctIds(tried)
      && (forall c :: c in tried ==> Accepts(p, q, s, c) && LocalityAllows(p, d.selected, c))
      && Sorted(p, q, d.chain)
      && (forall c, f :: Accepts(p, q, s, c) && c !in tried && LocalityAllows(p, d.selected, c) && f in d.chain ==>
            Better(p, q, f, c))
  {
    ScanSplits(p, q, s);
    var a := ScanAll(p, q, s).accepted;
    var o := Ordered(p, q, a);
    OrderedShape(p, q, a);
    var d := Route(p, q, s).decision;
    var kept := FallbacksShape(p, d.selected, o[1..]);
    KeepSorted(p, q, o[1..], !p.allowCloudEscalation && d.selected.local);
    PrefixKeepsBest(p, q, kept, d.chain);
    SortedIsDistinct(p, q, a, d.chain);
    ConsDistinct(a, d.selected, d.chain);
  }

  /** Only a positive attempt bound is a bound: with zero attempts Python's slice keeps a fallback. */
  lemma BoundNeedsPositiveAttempts(p: Policy, q: Query, s: seq<Candidate>)
    requires Route(p, q, s).Routed?
    ensures |Route(p, q, s).decision.chain| + 1 <= p.maxAttempts <==> p.maxAttempts >= 1
  {
    if p.maxAttempts >= 1 {
      ChainIsSound(p, q, s);
    }
  }

  /** Without an explicit choice the selected model is the least-scored acceptable one. */
  lemma SelectedIsBest(p: Policy, q: Query, s: seq<Candidate>, c: Candidate)
    requires Route(p, q, s).Routed? && Explicit(q).None? && Accepts(p, q, s, c)
    ensures c == Route(p, q, s).decision.selected || Better(p, q, Route(p, q, s).decision.selected, c)
  {
    ScanSplits(p, q, s);
    OrderedShape(p, q, ScanAll(p, q, s).accepted);
  }

  /** Routing succeeds exactly when ids are distinct and some candidate, or the explicit one, is acceptable. */
  lemma RoutedExactlyWhen(p: Policy, q: Query, s: seq<Candidate>)
    ensures Route(p, q, s).Routed? <==>
      && DistinctIds(s)
      && exists c :: Accepts(p, q, s, c) && (Explicit(q).Some? ==> c.id == Explicit(q).value)
  {
    ScanSplits(p, q, s);
    if DistinctIds(s) {
      var a := ScanAll(p, q, s).accepted;
      if Explicit(q).Some? { WithIdFinds(a, Explicit(q).value); }
      if Ordered(p, q, a) != [] {
        OrderedShape(p, q, a);
        assert Accepts(p, q, s, Ordered(p, q, a)[0]);
      } else if Explicit(q).None? {
        forall c ensures !Accepts(p, q, s, c) { SameElements(Sort(p, q, a), a, c); }
      }
    }
  }

  /** Adding a candidate changes the selection exactly when the new one is acceptable and scores better. */
  lemma AddedCandidateWinsOrNothingChanges(p: Policy, q: Query, s: seq<Candidate>, c: Candidate)
    requires Route(p, q, s).Routed? && Explicit(q).None? && DistinctIds(s + [c])
    ensures Route(p, q, s + [c]).Routed?
    ensures Route(p, q, s + [c]).decision.selected ==
      if Compliant(p, q, c) && Better(p, q, c, Route(p, q, s).decision.selected) then c
        else Route(p, q, s).decision.selected
  {
    var t := s + [c];
    var winner, after := Route(p, q, s).decision.selected, Route(p, q, t);
    ScanSplits(p, q, s);
    ScanSplits(p, q, t);
    OrderedShape(p, q, ScanAll(p, q, s).accepted);
    assert Accepts(p, q, s, winner);
    assert forall x :: x in t <==> x in s || x == c;
    assert Accepts(p, q, t, winner);
    RoutedExactlyWhen(p, q, t);
    OrderedShape(p, q, ScanAll(p, q, t).accepted);
    var chosen := after.decision.selected;
    SelectedIsBest(p, q, t, winner);
    if chosen != c { SelectedIsBest(p, q, s, chosen); }
    if Compliant(p, q, c) { SelectedIsBest(p, q, t, c); }
    BetterIsStrictTotal(p, q, chosen, winner, chosen);
    BetterIsStrictTotal(p, q, c, winner, c);
    BetterIsStrictTotal(p, q, chosen, c, chosen);
  }
}
