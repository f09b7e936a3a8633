/**
 Which candidate should win, in terms of the candidates' own fields, and that the
 router follows it: health first, then what the category of the task asks for,
 then the names.
 */
module RouterPreference {
  import opened Wrappers
  import H = Health
  import opened Router
  import opened RouterSafety
  import Ordering

  /** A healthy candidate against a degraded one. */
  predicate Healthier(a: Candidate, b: Candidate) {
    a.health != H.Degraded && b.health == H.Degraded
  }

  /** A local candidate, where local ones are preferred. */
  predicate PreferredLocal(p: Policy, c: Candidate) {
    p.preferLocal && c.local
  }

  /** `a` runs where the policy prefers it and `b` does not. */
  predicate Nearer(p: Policy, a: Candidate, b: Candidate) {
    PreferredLocal(p, a) && !PreferredLocal(p, b)
  }

  predicate AsNear(p: Policy, a: Candidate, b: Candidate) {
    PreferredLocal(p, a) <==> PreferredLocal(p, b)
  }

  /** Simple tasks: preferred local, then faster, then cheaper. */
  predicate SuitsSimple(p: Policy, a: Candidate, b: Candidate) {
    || Nearer(p, a, b)
    || (AsNear(p, a, b) && a.latency < b.latency)
    || (AsNear(p, a, b) && a.latency == b.latency && a.cost < b.cost)
  }

  /** Coding: higher quality, then larger context, then faster. */
  predicate SuitsCoding(a: Candidate, b: Candidate) {
    || a.quality > b.quality
    || (a.quality == b.quality && a.context > b.context)
    || (a.quality == b.quality && a.context == b.context && a.latency < b.latency)
  }

  /** Vision: higher quality, then preferred local, then faster. */
  predicate SuitsVision(p: Policy, a: Candidate, b: Candidate) {
    || a.quality > b.quality
    || (a.quality == b.quality && Nearer(p, a, b))
    || (a.quality == b.quality && AsNear(p, a, b) && a.latency < b.latency)
  }

  /** Research and hard reasoning: higher quality, then more reliable, then cheaper. */
  predicate SuitsResearch(a: Candidate, b: Candidate) {
    || a.quality > b.quality
    || (a.quality == b.quality && a.reliability > b.reliability)
    || (a.quality == b.quality && a.reliability == b.reliability && a.cost < b.cost)
  }

  predicate Suits(p: Policy, category: Category, a: Candidate, b: Candidate) {
    match category
    case Simple => SuitsSimple(p, a, b)
    case Coding => SuitsCoding(a, b)
    case Vision => SuitsVision(p, a, b)
    case WebResearch => SuitsResearch(a, b)
    case HighReasoning => SuitsResearch(a, b)
  }

  /** `a` should be tried before `b`, names aside. */
  predicate Precedes(p: Policy, q: Query, a: Candidate, b: Candidate) {
    Healthier(a, b) || (!Healthier(b, a) && Suits(p, q.category, a, b))
  }

  /** Provider, then model, then id, as strings. */
  predicate NamedBefore(a: Candidate, b: Candidate) {
    || Ordering.Less(a.provider, b.provider)
    || (a.provider == b.provider && Ordering.Less(a.model, b.model))
    || (a.provider == b.provider && a.model == b.model && Ordering.Less(a.id, b.id))
  }

  lemma NamesDecide(a: Candidate, b: Candidate)
    ensures !Ordering.Less(a.provider, a.provider) && !Ordering.Less(a.model, a.model)
  {
    Ordering.LessIrreflexive(a.provider);
    Ordering.LessIrreflexive(a.model);
  }

  /** The score orders candidates exactly by what they offer, and by their names only when that is equal. */
  lemma BetterExactly(p: Policy, q: Query, a: Candidate, b: Candidate)
    ensures Better(p, q, a, b) <==>
      Precedes(p, q, a, b) || (!Precedes(p, q, a, b) && !Precedes(p, q, b, a) && NamedBefore(a, b))
  {
    NamesDecide(a, b);
  }

  lemma PrecedesIsBetter(p: Policy, q: Query, s: seq<Candidate>, a: Candidate, b: Candidate)
    requires Accepts(p, q, s, a) && Accepts(p, q, s, b) && Better(p, q, a, b)
    ensures !Precedes(p, q, b, a)
  {
    BetterExactly(p, q, a, b);
    BetterExactly(p, q, b, a);
    BetterIsStrictTotal(p, q, a, b, a);
  }

  /** Without an explicit choice, no acceptable candidate should have been tried before the one that is selected. */
  lemma NobodyPrecedesSelected(p: Policy, q: Query, s: seq<Candidate>, c: Candidate)
    requires Route(p, q, s).Routed? && Explicit(q).None? && Accepts(p, q, s, c)
    ensures !Precedes(p, q, c, Route(p, q, s).decision.selected)
  {
    hide Better, Route, Precedes;
    SelectedIsAccepted(p, q, s);
    SelectedIsBest(p, q, s, c);
    var selected := Route(p, q, s).decision.selected;
    if c == selected {
      NothingPrecedesItself(p, q, c);
    } else {
      PrecedesIsBetter(p, q, s, selected, c);
    }
  }

  lemma NothingPrecedesItself(p: Policy, q: Query, c: Candidate)
    ensures !Precedes(p, q, c, c)
  {
  }

  lemma SelectedIsAccepted(p: Policy, q: Query, s: seq<Candidate>)
    requires Route(p, q, s).Routed?
    ensures Accepts(p, q, s, Route(p, q, s).decision.selected)
  {
    ScanSplits(p, q, s);
    OrderedShape(p, q, ScanAll(p, q, s).accepted);
  }

  /** The fallbacks are tried in the same order, and what is left out should not have been tried before any of them. */
  lemma FallbacksFollowPreference(p: Policy, q: Query, s: seq<Candidate>, i: nat, j: nat, c: Candidate)
    requires Route(p, q, s).Routed? && p.maxAttempts >= 1
    ensures var d := Route(p, q, s).decision;
      && (i < j < |d.chain| ==> !Precedes(p, q, d.chain[j], d.chain[i]))
      && (i < |d.chain| && Accepts(p, q, s, c) && c !in [d.selected] + d.chain && LocalityAllows(p, d.selected, c) ==>
            !Precedes(p, q, c, d.chain[i]))
  {
    hide Better, Route, Precedes, Compliant, LocalityAllows;
    ChainIsSound(p, q, s);
    var d := Route(p, q, s).decision;
    if i < |d.chain| {
      assert d.chain[i] in [d.selected] + d.chain;
      if i < j < |d.chain| {
        assert d.chain[j] in [d.selected] + d.chain;
        PrecedesIsBetter(p, q, s, d.chain[i], d.chain[j]);
      }
      if Accepts(p, q, s, c) && c !in [d.selected] + d.chain && LocalityAllows(p, d.selected, c) {
        PrecedesIsBetter(p, q, s, d.chain[i], c);
      }
    }
  }

  // ----- As many fallbacks as are allowed

  /** An acceptable candidate of allowed locality is left out only when all attempts are taken. */
  lemma ChainIsFull(p: Policy, q: Query, s: seq<Candidate>, c: Candidate)
    requires Route(p, q, s).Routed? && p.maxAttempts >= 1
    ensures var d := Route(p, q, s).decision;
      Accepts(p, q, s, c) && LocalityAllows(p, d.selected, c) && c !in [d.selected] + d.chain ==>
        |d.chain| + 1 == p.maxAttempts
  {
    ScanSplits(p, q, s);
    OrderedShape(p, q, ScanAll(p, q, s).accepted);
    var d := Route(p, q, s).decision;
    var rest := Ordered(p, q, ScanAll(p, q, s).accepted)[1..];
    var kept := FallbacksShape(p, d.selected, rest);
    if c in kept && c !in d.chain {
      assert d.chain != kept;
    }
  }

  // ----- What a decision and a refusal report

  ghost function FirstReasons(q: Query, c: Candidate): seq<Reason> {
    When(!c.enabled, Disabled)
    + When(c.health !in {H.Healthy, H.Degraded}, BadHealth(c.health))
    + When(q.abilities - c.abilities != {}, MissingAbilities(q.abilities - c.abilities))
    + When(q.providers != {} && c.provider !in q.providers, ProviderNotAllowed)
    + When(q.localOnly && !c.local, NotLocal)
  }

  lemma InFirst(q: Query, c: Candidate, r: Reason)
    ensures r in FirstReasons(q, c) <==>
      || (!c.enabled && r == Disabled)
      || (c.health !in {H.Healthy, H.Degraded} && r == BadHealth(c.health))
      || (q.abilities - c.abilities != {} && r == MissingAbilities(q.abilities - c.abilities))
      || (q.providers != {} && c.provider !in q.providers && r == ProviderNotAllowed)
      || (q.localOnly && !c.local && r == NotLocal)
  {
  }

  ghost function LastReasons(p: Policy, q: Query, c: Candidate, first: seq<Reason>): seq<Reason> {
    first
    + When(!q.offDeviceAllowed && !c.local, OffDevice)
    + When(q.residencies != {} && c.residency !in q.residencies, Residency)
    + When(c.cost > q.maximumCost, TooExpensive)
    + When(c.cost == HIGH && p.requireBudgetConfirmation && !q.budgetConfirmed, NeedsBudget)
    + When(c.context < q.minimumContext, ContextTooSmall)
  }

  lemma InLast(p: Policy, q: Query, c: Candidate, first: seq<Reason>, r: Reason)
    ensures r in LastReasons(p, q, c, first) <==>
      || r in first
      || (!q.offDeviceAllowed && !c.local && r == OffDevice)
      || (q.residencies != {} && c.residency !in q.residencies && r == Residency)
      || (c.cost > q.maximumCost && r == TooExpensive)
      || (c.cost == HIGH && p.requireBudgetConfirmation && !q.budgetConfirmed && r == NeedsBudget)
      || (c.context < q.minimumContext && r == ContextTooSmall)
  {
  }

  lemma ReasonsSplit(p: Policy, q: Query, c: Candidate)
    ensures Reasons(p, q, c) == LastReasons(p, q, c, FirstReasons(q, c))
  {
    hide When;
  }

  /** Each reason is given exactly when the candidate has that defect, with what is missing. */
  lemma ReasonsExactly(p: Policy, q: Query, c: Candidate, r: Reason)
    ensures r in Reasons(p, q, c) <==>
      match r
      case Disabled => !c.enabled
      case BadHealth(state) => c.health == state && state != H.Healthy && state != H.Degraded
      case MissingAbilities(missing) =>
        missing != {} && forall a :: a in missing <==> a in q.abilities && a !in c.abilities
      case ProviderNotAllowed => q.providers != {} && c.provider !in q.providers
      case NotLocal => q.localOnly && !c.local
      case OffDevice => !q.offDeviceAllowed && !c.local
      case Residency => q.residencies != {} && c.residency !in q.residencies
      case TooExpensive => q.maximumCost < c.cost
      case NeedsBudget => c.cost == HIGH && p.requireBudgetConfirmation && !q.budgetConfirmed
      case ContextTooSmall => c.context < q.minimumContext
  {
    hide Reasons, FirstReasons, LastReasons;
    ReasonsSplit(p, q, c);
    InFirst(q, c, r);
    InLast(p, q, c, FirstReasons(q, c), r);
    if r.MissingAbilities? {
      assert (forall a :: a in r.missing <==> a in q.abilities && a !in c.abilities)
        <==> r.missing == q.abilities - c.abilities;
    }
  }

  /** A decision reports every rejected candidate and no other, the cost of its choice, and whether it was asked for. */
  lemma DecisionReports(p: Policy, q: Query, s: seq<Candidate>)
    requires Route(p, q, s).Routed?
    ensures var d := Route(p, q, s).decision;
      && (forall r :: r in d.rejected <==> RejectedFrom(p, q, s, r))
      && d.cost == d.selected.cost
      && (d.honoredExplicit <==> q.explicit.Some? && q.explicit.value != "")
      && (d.honoredExplicit ==> d.selected.id == q.explicit.value)
  {
    ScanSplits(p, q, s);
    OrderedShape(p, q, ScanAll(p, q, s).accepted);
  }

  /** A refusal names an id that two candidates share, the explicit id that is not acceptable, or that nothing is. */
  lemma {:induction false} RefusalReports(p: Policy, q: Query, s: seq<Candidate>)
    requires Route(p, q, s).Refused?
    ensures match Route(p, q, s).failure
      case Duplicate(id) => exists i, j :: 0 <= i < j < |s| && s[i].id == s[j].id == id
      case ExplicitUnavailable(id) =>
        DistinctIds(s) && q.explicit == Some(id) && id != "" && forall c :: Accepts(p, q, s, c) ==> c.id != id
      case NoCandidate =>
        DistinctIds(s) && (q.explicit.None? || q.explicit.value == "") && forall c :: !Accepts(p, q, s, c)
  {
    ScanSplits(p, q, s);
    RoutedExactlyWhen(p, q, s);
    if ScanAll(p, q, s).Clash? {
      ClashRepeats(p, q, s);
    }
  }

  lemma {:induction false} ClashRepeats(p: Policy, q: Query, s: seq<Candidate>)
    requires ScanAll(p, q, s).Clash?
    ensures exists i, j :: 0 <= i < j < |s| && s[i].id == s[j].id == ScanAll(p, q, s).id
    decreases |s|
  {
    var front, last := s[..|s| - 1], s[|s| - 1];
    if ScanAll(p, q, front).Clash? {
      ClashRepeats(p, q, front);
      var i, j :| 0 <= i < j < |front| && front[i].id == front[j].id == ScanAll(p, q, front).id;
      assert s[i] == front[i] && s[j] == front[j];
    } else {
      var c :| c in front && c.id == last.id;
      var i :| 0 <= i < |front| && front[i] == c;
      assert s[i] == front[i] && s[|s| - 1] == last;
    }
  }
}
