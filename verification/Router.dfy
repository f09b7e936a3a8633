/** Deterministic model routing: hard filters, then a total order on what is left. */
module Router {
  import opened Wrappers
  import opened Health
  import Ordering

  datatype Category = Simple | Coding | Vision | WebResearch | HighReasoning

  const FREE := 0
  const HIGH := 3

  datatype Policy = Policy(
    preferLocal: bool, allowCloudEscalation: bool, requireBudgetConfirmation: bool, maxAttempts: int)

  /** `cost` is the cost class, from `FREE` to `HIGH`. */
  datatype Candidate = Candidate(
    id: string, provider: string, model: string, abilities: set<string>, health: HealthState,
    enabled: bool, local: bool, residency: string, cost: nat, latency: int,
    quality: int, reliability: int, context: int)

  datatype Query = Query(
    category: Category, abilities: set<string>, localOnly: bool, offDeviceAllowed: bool,
    providers: set<string>, residencies: set<string>, maximumCost: nat, minimumContext: int,
    explicit: Option<string>, budgetConfirmed: bool)

  datatype Reason =
    | Disabled | BadHealth(state: HealthState) | MissingAbilities(missing: set<string>)
    | ProviderNotAllowed | NotLocal | OffDevice | Residency | TooExpensive | NeedsBudget | ContextTooSmall

  datatype Rejected = Rejected(id: string, reasons: seq<Reason>)

  datatype Decision = Decision(
    selected: Candidate, chain: seq<Candidate>, rejected: seq<Rejected>, honoredExplicit: bool, cost: nat)

  datatype Failure = Duplicate(id: string) | ExplicitUnavailable(id: string) | NoCandidate

  datatype Routing = Routed(decision: Decision) | Refused(failure: Failure, rejected: seq<Rejected>)

  // ----- Filters

  function When(condition: bool, reason: Reason): seq<Reason> {
    if condition then [reason] else []
  }

  function Reasons(p: Policy, q: Query, c: Candidate): seq<Reason> {
    When(!c.enabled, Disabled)
    + When(c.health !in {Healthy, Degraded}, BadHealth(c.health))
    + When(q.abilities - c.abilities != {}, MissingAbilities(q.abilities - c.abilities))
    + When(q.providers != {} && c.provider !in q.providers, ProviderNotAllowed)
    + When(q.localOnly && !c.local, NotLocal)
    + When(!q.offDeviceAllowed && !c.local, OffDevice)
    + When(q.residencies != {} && c.residency !in q.residencies, Residency)
    + When(c.cost > q.maximumCost, TooExpensive)
    + When(c.cost == HIGH && p.requireBudgetConfirmation && !q.budgetConfirmed, NeedsBudget)
    + When(c.context < q.minimumContext, ContextTooSmall)
  }

  /** What the filters promise of every candidate that is used. */
  predicate Compliant(p: Policy, q: Query, c: Candidate) {
    && c.enabled
    && (c.health == Healthy || c.health == Degraded)
    && q.abilities <= c.abilities
    && (q.providers != {} ==> c.provider in q.providers)
    && (q.localOnly || !q.offDeviceAllowed ==> c.local)
    && (q.residencies != {} ==> c.residency in q.residencies)
    && c.cost <= q.maximumCost
    && (c.cost == HIGH && p.requireBudgetConfirmation ==> q.budgetConfirmed)
    && q.minimumContext <= c.context
  }

  /** A candidate is accepted exactly when it meets every hard constraint. */
  lemma AcceptedIsCompliant(p: Policy, q: Query, c: Candidate)
    ensures Reasons(p, q, c) == [] <==> Compliant(p, q, c)
  {
    EmptyDifference(q.abilities, c.abilities);
  }

  // ----- Order

  datatype Key = Key(penalty: int, first: int, second: int, third: int, provider: string, model: string, id: string)

  function Score(p: Policy, q: Query, c: Candidate): Key {
    var penalty := if c.health == Degraded then 1 else 0;
    var locality := if c.local && p.preferLocal then 0 else 1;
    match q.category
    case Simple => Key(penalty, locality, c.latency, c.cost, c.provider, c.model, c.id)
    case Coding => Key(penalty, -c.quality, -c.context, c.latency, c.provider, c.model, c.id)
    case Vision => Key(penalty, -c.quality, locality, c.latency, c.provider, c.model, c.id)
    case _ => Key(penalty, -c.quality, -c.reliability, c.cost, c.provider, c.model, c.id)
  }

  /** Tuple comparison. */
  predicate KeyLess(x: Key, y: Key) {
    if x.penalty != y.penalty then x.penalty < y.penalty
    else if x.first != y.first then x.first < y.first
    else if x.second != y.second then x.second < y.second
    else if x.third != y.third then x.third < y.third
    else if x.provider != y.provider then Ordering.Less(x.provider, y.provider)
    else if x.model != y.model then Ordering.Less(x.model, y.model)
    else Ordering.Less(x.id, y.id)
  }

  lemma KeyOrder(x: Key, y: Key, z: Key)
    ensures KeyLess(x, y) && KeyLess(y, z) ==> KeyLess(x, z)
    ensures !(KeyLess(x, y) && KeyLess(y, x))
    ensures x != y ==> KeyLess(x, y) || KeyLess(y, x)
  {
    StringOrder(x.provider, y.provider, z.provider);
    StringOrder(x.model, y.model, z.model);
    StringOrder(x.id, y.id, z.id);
  }

  lemma StringOrder(a: string, b: string, c: string)
    ensures Ordering.Less(a, b) && Ordering.Less(b, c) ==> Ordering.Less(a, c)
    ensures !(Ordering.Less(a, b) && Ordering.Less(b, a))
    ensures a != b ==> Ordering.Less(a, b) || Ordering.Less(b, a)
  {
    if Ordering.Less(a, b) && Ordering.Less(b, c) { Ordering.LessTransitive(a, b, c); }
    if Ordering.Less(a, b) && Ordering.Less(b, a) { Ordering.LessTransitive(a, b, a); Ordering.LessIrreflexive(a); }
    if a != b { Ordering.LessTotal(a, b); }
  }

  predicate Better(p: Policy, q: Query, a: Candidate, b: Candidate) {
    KeyLess(Score(p, q, a), Score(p, q, b))
  }

  /** The score ends in the identifier, so candidates with distinct ids are strictly and totally ordered. */
  lemma BetterIsStrictTotal(p: Policy, q: Query, a: Candidate, b: Candidate, c: Candidate)
    ensures Better(p, q, a, b) && Better(p, q, b, c) ==> Better(p, q, a, c)
    ensures !(Better(p, q, a, b) && Better(p, q, b, a))
    ensures a.id != b.id ==> Better(p, q, a, b) || Better(p, q, b, a)
  {
    KeyOrder(Score(p, q, a), Score(p, q, b), Score(p, q, c));
  }

  function Insert(p: Policy, q: Query, c: Candidate, s: seq<Candidate>): (r: seq<Candidate>)
    ensures multiset(r) == multiset(s) + multiset{c}
  {
    if s == [] then [c]
    else if Better(p, q, s[0], c) then
      assert s == [s[0]] + s[1..];
      [s[0]] + Insert(p, q, c, s[1..])
    else [c] + s
  }

  /** The stable sort by score. */
  function Sort(p: Policy, q: Query, s: seq<Candidate>): (r: seq<Candidate>)
    ensures multiset(r) == multiset(s)
  {
    if s == [] then []
    else
      assert s == [s[0]] + s[1..];
      Insert(p, q, s[0], Sort(p, q, s[1..]))
  }

  // ----- Routing

  datatype Scan = Scanned(accepted: seq<Candidate>, rejected: seq<Rejected>) | Clash(id: string,
      rejected: seq<Rejected>)

  function Ids(s: seq<Candidate>): set<string> {
    set c | c in s :: c.id
  }

  /** Take one more candidate into account, unless its id was already seen. */
  function ScanOne(p: Policy, q: Query, sofar: Scan, seen: set<string>, c: Candidate): Scan {
    match sofar
    case Clash(id, rejected) => sofar
    case Scanned(accepted, rejected) =>
      if c.id in seen then Clash(c.id, rejected)
      else if Reasons(p, q, c) != [] then Scanned(accepted, rejected + [Rejected(c.id, Reasons(p, q, c))])
      else Scanned(accepted + [c], rejected)
  }

  /** One pass over the candidates, in order, up to the first repeated id. */
  function ScanAll(p: Policy, q: Query, s: seq<Candidate>): Scan
    decreases |s|
  {
    if s == [] then Scanned([], [])
    else ScanOne(p, q, ScanAll(p, q, s[..|s| - 1]), Ids(s[..|s| - 1]), s[|s| - 1])
  }

  lemma ScanNext(p: Policy, q: Query, s: seq<Candidate>, i: nat)
    requires i < |s|
    ensures ScanAll(p, q, s[..i + 1]) == ScanOne(p, q, ScanAll(p, q, s[..i]), Ids(s[..i]), s[i])
    ensures Ids(s[..i + 1]) == Ids(s[..i]) + {s[i].id}
  {
    assert s[..i + 1][..i] == s[..i];
    assert s[..i + 1] == s[..i] + [s[i]];
  }

  /** Python's `s[:k]`, which drops from the end when `k` is negative. */
  function Slice(s: seq<Candidate>, k: int): seq<Candidate> {
    if k >= |s| then s else if k >= 0 then s[..k] else if -k <= |s| then s[..|s| + k] else []
  }

  function Keep(s: seq<Candidate>, localOnly: bool): seq<Candidate> {
    if s == [] then []
    else (if localOnly && !s[0].local then [] else [s[0]]) + Keep(s[1..], localOnly)
  }

  function Fallbacks(p: Policy, selected: Candidate, ordered: seq<Candidate>): seq<Candidate> {
    Slice(Keep(ordered, !p.allowCloudEscalation && selected.local), p.maxAttempts - 1)
  }

  /** An empty explicit id counts as none. */
  function Explicit(q: Query): Option<string> {
    if q.explicit == Some("") then None else q.explicit
  }

  function Without(s: seq<Candidate>, id: string): seq<Candidate> {
    if s == [] then [] else (if s[0].id == id then [] else [s[0]]) + Without(s[1..], id)
  }

  function WithId(s: seq<Candidate>, id: string): Option<Candidate> {
    if s == [] then None else if s[0].id == id then Some(s[0]) else WithId(s[1..], id)
  }

  /** The candidates in the order in which they would be tried. */
  function Ordered(p: Policy, q: Query, accepted: seq<Candidate>): seq<Candidate> {
    match Explicit(q)
    case None => Sort(p, q, accepted)
    case Some(id) =>
      match WithId(accepted, id)
      case None => []
      case Some(c) => [c] + Sort(p, q, Without(accepted, id))
  }

  /** Select among the accepted candidates. */
  function Choose(p: Policy, q: Query, accepted: seq<Candidate>, rejected: seq<Rejected>): Routing {
    var o := Ordered(p, q, accepted);
    if o == [] then
      Refused(if Explicit(q).Some? then ExplicitUnavailable(Explicit(q).value) else NoCandidate, rejected)
    else
      Routed(Decision(o[0], Fallbacks(p, o[0], o[1..]), rejected, Explicit(q).Some?, o[0].cost))
  }

  function Route(p: Policy, q: Query, s: seq<Candidate>): Routing {
    match ScanAll(p, q, s)
    case Clash(id, rejected) => Refused(Duplicate(id), rejected)
    case Scanned(accepted, rejected) => Choose(p, q, accepted, rejected)
  }

  /** The router's own loop over the candidates. */
  method RouteCandidates(p: Policy, q: Query, s: seq<Candidate>) returns (r: Routing)
    ensures r == Route(p, q, s)
  {
    var accepted: seq<Candidate>, rejected: seq<Rejected>, seen: set<string> := [], [], {};
    var i := 0;
    while i < |s|
      invariant 0 <= i <= |s|
      invariant ScanAll(p, q, s[..i]) == Scanned(accepted, rejected)
      invariant seen == Ids(s[..i])
    {
      var c := s[i];
      ScanNext(p, q, s, i);
      if c.id in seen {
        ClashStays(p, q, s, i + 1);
        return Refused(Duplicate(c.id), rejected);
      }
      seen := seen + {c.id};
      var reasons := Reasons(p, q, c);
      if reasons != [] {
        rejected := rejected + [Rejected(c.id, reasons)];
      } else {
        accepted := accepted + [c];
      }
      i := i + 1;
    }
    assert s[..i] == s;
    return Choose(p, q, accepted, rejected);
  }

  lemma {:induction false} ClashStays(p: Policy, q: Query, s: seq<Candidate>, i: nat)
    requires i <= |s| && ScanAll(p, q, s[..i]).Clash?
    ensures ScanAll(p, q, s) == ScanAll(p, q, s[..i])
    decreases |s|
  {
    if i < |s| {
      assert s[..|s| - 1][..i] == s[..i];
      ClashStays(p, q, s[..|s| - 1], i);
    } else {
      assert s[..i] == s;
    }
  }
}
