/** Capability health, derived once over the registry in its listed order. */
module Health {
  datatype HealthState =
    Unknown | Starting | Healthy | Degraded | Unavailable | Blocked | Misconfigured | DisabledState

  datatype Capability = Capability(
    id: string, version: string, enabled: bool, requiredConfig: set<string>, dependencies: seq<string>,
    entrypointKind: string, entrypointAddress: string, health: HealthState)

  /** Observations the monitor is given: nothing is probed here. */
  datatype Observations = Observations(
    availability: map<string, bool>, configured: map<string, set<string>>, probes: map<string, HealthState>)

  predicate HardFailure(s: HealthState) {
    s in {Unavailable, Misconfigured, DisabledState, Blocked}
  }

  predicate SoftFailure(s: HealthState) {
    s in {Degraded, Unknown, Starting}
  }

  function Available(o: Observations, id: string): bool {
    id in o.availability && o.availability[id]
  }

  function Configured(o: Observations, id: string): set<string> {
    if id in o.configured then o.configured[id] else {}
  }

  predicate Probed(o: Observations, id: string, s: HealthState) {
    id in o.probes && o.probes[id] == s
  }

  function DeriveState(c: Capability, o: Observations, states: map<string, HealthState>): HealthState {
    if !c.enabled then DisabledState
    else if c.requiredConfig - Configured(o, c.id) != {} then Misconfigured
    else if !Available(o, c.id) then Unavailable
    else if exists d :: d in c.dependencies && d !in states then Unavailable
    else if exists d :: d in c.dependencies && d in states && HardFailure(states[d]) then Unavailable
    else if Probed(o, c.id, DisabledState) then DisabledState
    else if Probed(o, c.id, Misconfigured) then Misconfigured
    else if Probed(o, c.id, Unavailable) || Probed(o, c.id, Blocked) then Unavailable
    else if (exists d :: d in c.dependencies && d in states && SoftFailure(states[d])) || Probed(o, c.id, Degraded)
    then Degraded
    else Healthy
  }

  /** The states known after assessing a registry in order, starting from external states. */
  function States(r: seq<Capability>, o: Observations, external: map<string, HealthState>): map<string, HealthState>
    decreases |r|
  {
    if r == [] then external
    else
      var c := r[|r| - 1];
      var before := States(r[..|r| - 1], o, external);
      before[c.id := DeriveState(c, o, before)]
  }

  function Assessed(r: seq<Capability>, o: Observations, external: map<string, HealthState>): (a: seq<Capability>)
    ensures |a| == |r|
    ensures forall i :: 0 <= i < |r| ==> a[i] == r[i].(health := a[i].health)
    decreases |r|
  {
    if r == [] then []
    else
      var c := r[|r| - 1];
      Assessed(r[..|r| - 1], o, external)
      + [c.(health := DeriveState(c, o, States(r[..|r| - 1], o, external)))]
  }

  /** The monitor's loop, which carries the states it has assigned so far. */
  method AssessRegistry(r: seq<Capability>, o: Observations, external: map<string, HealthState>)
    returns (assessed: seq<Capability>, states: map<string, HealthState>)
    ensures assessed == Assessed(r, o, external)
    ensures states == States(r, o, external)
  {
    hide DeriveState;
    states := external;
    assessed := [];
    var i := 0;
    while i < |r|
      invariant 0 <= i <= |r|
      invariant assessed == Assessed(r[..i], o, external)
      invariant states == States(r[..i], o, external)
    {
      assert r[..i + 1][..i] == r[..i];
      var state := DeriveState(r[i], o, states);
      assessed := assessed + [r[i].(health := state)];
      states := states[r[i].id := state];
      i := i + 1;
    }
    assert r[..i] == r;
  }

  // ----- What the fold means

  /** Failed, soft and healthy, from worst to best. */
  function Level(s: HealthState): nat {
    if HardFailure(s) then 0 else if SoftFailure(s) then 1 else 2
  }

  /** The level of a capability judged without its dependencies. */
  function LocalLevel(c: Capability, o: Observations): nat {
    if !c.enabled || !(c.requiredConfig <= Configured(o, c.id)) || !Available(o, c.id)
       || Probed(o, c.id, DisabledState) || Probed(o, c.id, Misconfigured)
       || Probed(o, c.id, Unavailable) || Probed(o, c.id, Blocked) then 0
    else if Probed(o, c.id, Degraded) then 1
    else 2
  }

  predicate Listed(r: seq<Capability>, id: string) {
    exists i :: 0 <= i < |r| && r[i].id == id
  }

  function Index(r: seq<Capability>, id: string): (i: nat)
    requires Listed(r, id)
    ensures i < |r| && r[i].id == id
  {
    if r[0].id == id then 0
    else
      assert Listed(r[1..], id) by {
        var i :| 0 <= i < |r| && r[i].id == id;
        assert r[1..][i - 1].id == id;
      }
      1 + Index(r[1..], id)
  }

  predicate DistinctIds(r: seq<Capability>) {
    forall i, j :: 0 <= i < j < |r| ==> r[i].id != r[j].id
  }

  /** A dependency that the registry lists is listed earlier. */
  predicate DependenciesFirst(r: seq<Capability>) {
    forall i, j :: 0 <= i < |r| && 0 <= j < |r| && r[j].id in r[i].dependencies ==> j < i
  }

  /** The level that `id` contributes by itself: listed, external, or missing. */
  function OwnLevel(r: seq<Capability>, o: Observations, external: map<string, HealthState>, id: string): nat {
    if Listed(r, id) then LocalLevel(r[Index(r, id)], o)
    else if id in external then Level(external[id])
    else 0
  }

  function Dependencies(r: seq<Capability>, id: string): seq<string> {
    if Listed(r, id) then r[Index(r, id)].dependencies else []
  }

  /** A chain of dependencies starting at its first element. */
  ghost predicate IsChain(r: seq<Capability>, chain: seq<string>) {
    && chain != []
    && (forall k :: 0 <= k < |chain| - 1 ==> chain[k + 1] in Dependencies(r, chain[k]))
  }

  /** `v` is the least own level of anything reachable from `id` through dependencies. */
  ghost predicate IsReachableMinimum(r: seq<Capability>, o: Observations, external: map<string, HealthState>,
                                     id: string, v: nat) {
    && (forall chain :: IsChain(r, chain) && chain[0] == id ==> v <= OwnLevel(r, o, external, chain[|chain| - 1]))
    && (exists chain :: IsChain(r, chain) && chain[0] == id && v == OwnLevel(r, o, external, chain[|chain| - 1]))
  }

  /** One assessment takes the minimum of the capability's own level and its dependencies' levels. */
  lemma DeriveTakesMinimum(c: Capability, o: Observations, states: map<string, HealthState>)
    ensures var v := Level(DeriveState(c, o, states));
      && v <= LocalLevel(c, o)
      && (forall d :: d in c.dependencies ==> v <= if d in states then Level(states[d]) else 0)
      && (v == LocalLevel(c, o) || exists d :: d in c.dependencies && v == if d in states then Level(states[d]) else 0)
  {
    EmptyDifference(c.requiredConfig, Configured(o, c.id));
  }

  /**
   Nothing stands in the way but, perhaps, a probe: enabled, configured,
   available, and no dependency down or missing.
   */
  predicate Standing(c: Capability, o: Observations, states: map<string, HealthState>) {
    && c.enabled
    && (c.requiredConfig == {} || (c.id in o.configured && c.requiredConfig <= o.configured[c.id]))
    && c.id in o.availability && o.availability[c.id]
    && forall d :: d in c.dependencies ==> d in states && states[d] in {Healthy, Degraded, Unknown, Starting}
  }

  lemma HardOrStanding(s: HealthState)
    ensures HardFailure(s) <==> s !in {Healthy, Degraded, Unknown, Starting}
  {
    assert s.Unknown? || s.Starting? || s.Healthy? || s.Degraded? || s.Unavailable? || s.Blocked? || s.Misconfigured?
      || s.DisabledState?;
  }

  lemma DependenciesStand(c: Capability, states: map<string, HealthState>)
    ensures (forall d :: d in c.dependencies ==> d in states && states[d] in {Healthy, Degraded, Unknown, Starting})
      <==>
      && !(exists d :: d in c.dependencies && d !in states)
      && !(exists d :: d in c.dependencies && d in states && HardFailure(states[d]))
  {
    if !(exists d :: d in c.dependencies && d !in states)
       && !(exists d :: d in c.dependencies && d in states && HardFailure(states[d])) {
      forall d | d in c.dependencies ensures d in states && states[d] in {Healthy, Degraded, Unknown, Starting} {
        assert d in states && !HardFailure(states[d]);
        HardOrStanding(states[d]);
      }
    }
  }

  lemma DependenciesSoft(c: Capability, states: map<string, HealthState>)
    requires forall d :: d in c.dependencies ==> d in states && states[d] in {Healthy, Degraded, Unknown, Starting}
    ensures (exists d :: d in c.dependencies && states[d] != Healthy)
      <==> (exists d :: d in c.dependencies && d in states && SoftFailure(states[d]))
  {
    if d :| d in c.dependencies && states[d] != Healthy {
      assert d in states && SoftFailure(states[d]);
    }
  }

  /** Each state is assigned exactly for its own reasons. */
  lemma StateExactly(c: Capability, o: Observations, states: map<string, HealthState>)
    ensures var s := DeriveState(c, o, states);
      var configured := c.requiredConfig == {} || (c.id in o.configured && c.requiredConfig <= o.configured[c.id]);
      var probe := if c.id in o.probes then o.probes[c.id] else Healthy;
      && (s == DisabledState <==> !c.enabled || (Standing(c, o, states) && probe == DisabledState))
      && (s == Misconfigured <==> c.enabled && (!configured || (Standing(c, o, states) && probe == Misconfigured)))
      && (s == Unavailable <==>
            c.enabled && configured && (!Standing(c, o, states) || probe == Unavailable || probe == Blocked))
      && (s == Degraded <==>
            && Standing(c, o, states) && probe !in {DisabledState, Misconfigured, Unavailable, Blocked}
            && (probe == Degraded || exists d :: d in c.dependencies && states[d] != Healthy))
      && (s == Healthy <==>
            && Standing(c, o, states) && probe !in {DisabledState, Misconfigured, Unavailable, Blocked, Degraded}
            && forall d :: d in c.dependencies ==> states[d] == Healthy)
  {
    EmptyDifference(c.requiredConfig, Configured(o, c.id));
    DependenciesStand(c, states);
    if Standing(c, o, states) {
      DependenciesSoft(c, states);
    }
  }

  lemma EmptyDifference<T>(a: set<T>, b: set<T>)
    ensures a - b == {} <==> a <= b
  {
    if a - b == {} {
      forall x | x in a ensures x in b {
        assert x !in a - b;
      }
    }
  }

  lemma {:induction false} AssessedAt(r: seq<Capability>, o: Observations, external: map<string, HealthState>, i: nat)
    requires i < |r|
    ensures Assessed(r, o, external)[i].health == DeriveState(r[i], o, States(r[..i], o, external))
    decreases |r|
  {
    if i < |r| - 1 {
      AssessedAt(r[..|r| - 1], o, external, i);
      assert r[..|r| - 1][..i] == r[..i];
    }
  }

  /** What the loop has on record for `d` after the first `i` capabilities. */
  lemma {:induction false} StatesAt(r: seq<Capability>, o: Observations, external: map<string, HealthState>, i: nat,
                                    d: string)
    requires DistinctIds(r) && i <= |r|
    ensures Listed(r, d) && Index(r, d) < i ==>
      d in States(r[..i], o, external) && States(r[..i], o, external)[d] == Assessed(r, o, external)[Index(r, d)].health
    ensures !Listed(r, d) ==>
      (d in States(r[..i], o, external) <==> d in external)
      && (d in external ==> States(r[..i], o, external)[d] == external[d])
    decreases i
  {
    if i > 0 {
      assert r[..i][..i - 1] == r[..i - 1];
      StatesAt(r, o, external, i - 1, d);
      if Listed(r, d) && Index(r, d) == i - 1 {
        AssessedAt(r, o, external, i - 1);
      }
    }
  }

  lemma PrefixLists(r: seq<Capability>, i: nat, d: string)
    requires i <= |r|
    ensures Listed(r[..i], d) ==> Listed(r, d)
  {
    if k :| 0 <= k < |r[..i]| && r[..i][k].id == d {
      assert r[k].id == d;
    }
  }

  /** A dependency that the registry does not list keeps the state it is given from outside. */
  lemma {:induction false} UnlistedStays(r: seq<Capability>, o: Observations, external: map<string, HealthState>,
                                         d: string)
    requires !Listed(r, d)
    ensures d in States(r, o, external) <==> d in external
    ensures d in external ==> States(r, o, external)[d] == external[d]
    decreases |r|
  {
    if r != [] {
      var front, last := r[..|r| - 1], r[|r| - 1];
      assert r[|r| - 1].id != d;
      PrefixLists(r, |r| - 1, d);
      UnlistedStays(front, o, external, d);
    }
  }

  /** The level found for a dependency once the registry has been assessed. */
  function Found(r: seq<Capability>, o: Observations, external: map<string, HealthState>, d: string): nat {
    if Listed(r, d) then Level(Assessed(r, o, external)[Index(r, d)].health)
    else if d in external then Level(external[d])
    else 0
  }

  lemma AssessedTakesMinimum(r: seq<Capability>, o: Observations, external: map<string, HealthState>, i: nat)
    requires DistinctIds(r) && DependenciesFirst(r) && i < |r|
    ensures var v := Level(Assessed(r, o, external)[i].health);
      && v <= LocalLevel(r[i], o)
      && (forall d :: d in r[i].dependencies ==> v <= Found(r, o, external, d))
      && (v == LocalLevel(r[i], o) || exists d :: d in r[i].dependencies && v == Found(r, o, external, d))
  {
    var states := States(r[..i], o, external);
    AssessedAt(r, o, external, i);
    forall d | d in r[i].dependencies
      ensures (if d in states then Level(states[d]) else 0) == Found(r, o, external, d)
    {
      StatesAt(r, o, external, i, d);
    }
    DeriveTakesMinimum(r[i], o, states);
  }

  lemma ListedAt(r: seq<Capability>, i: nat)
    requires DistinctIds(r) && i < |r|
    ensures Listed(r, r[i].id) && Index(r, r[i].id) == i
  {
  }

  lemma {:induction false} ReachableBound(r: seq<Capability>, o: Observations, external: map<string, HealthState>,
                                          i: nat, chain: seq<string>)
    requires DistinctIds(r) && DependenciesFirst(r) && i < |r| && IsChain(r, chain) && chain[0] == r[i].id
    ensures Level(Assessed(r, o, external)[i].health) <= OwnLevel(r, o, external, chain[|chain| - 1])
    decreases i
  {
    ListedAt(r, i);
    AssessedTakesMinimum(r, o, external, i);
    if |chain| > 1 {
      var d := chain[1];
      assert d in r[i].dependencies;
      if Listed(r, d) {
        ReachableBound(r, o, external, Index(r, d), chain[1..]);
      } else {
        assert |chain| > 2 ==> chain[2] in Dependencies(r, d);
      }
    }
  }

  lemma ConsChain(r: seq<Capability>, id: string, rest: seq<string>)
    requires IsChain(r, rest) && rest[0] in Dependencies(r, id)
    ensures var chain := [id] + rest; IsChain(r, chain) && chain[|chain| - 1] == rest[|rest| - 1]
  {
    var chain := [id] + rest;
    forall k | 0 <= k < |chain| - 1 ensures chain[k + 1] in Dependencies(r, chain[k]) {
      if k > 0 {
        assert rest[k] in Dependencies(r, rest[k - 1]);
      }
    }
  }

  lemma {:induction false} ReachableWitness(r: seq<Capability>, o: Observations, external: map<string, HealthState>,
                                            i: nat)
    returns (chain: seq<string>)
    requires DistinctIds(r) && DependenciesFirst(r) && i < |r|
    ensures IsChain(r, chain) && chain[0] == r[i].id
    ensures Level(Assessed(r, o, external)[i].health) == OwnLevel(r, o, external, chain[|chain| - 1])
    decreases i
  {
    ListedAt(r, i);
    AssessedTakesMinimum(r, o, external, i);
    var v := Level(Assessed(r, o, external)[i].health);
    if v == LocalLevel(r[i], o) {
      chain := [r[i].id];
    } else {
      var d :| d in r[i].dependencies && v == Found(r, o, external, d);
      if Listed(r, d) {
        var rest := ReachableWitness(r, o, external, Index(r, d));
        ConsChain(r, r[i].id, rest);
        chain := [r[i].id] + rest;
      } else {
        chain := [r[i].id, d];
      }
    }
  }

  /**
   For a registry with distinct ids listed dependencies-first, the level the loop
   assigns is the least level of everything the capability transitively depends on.
   */
  lemma LevelIsReachableMinimum(r: seq<Capability>, o: Observations, external: map<string, HealthState>, i: nat)
    requires DistinctIds(r) && DependenciesFirst(r) && i < |r|
    ensures IsReachableMinimum(r, o, external, r[i].id, Level(Assessed(r, o, external)[i].health))
  {
    forall chain | IsChain(r, chain) && chain[0] == r[i].id
      ensures Level(Assessed(r, o, external)[i].health) <= OwnLevel(r, o, external, chain[|chain| - 1])
    {
      ReachableBound(r, o, external, i, chain);
    }
    var chain := ReachableWitness(r, o, external, i);
  }

  lemma HealthyMeansFull(s: HealthState)
    requires s in {Healthy, Degraded, Unavailable, Misconfigured, DisabledState}
    ensures Level(s) == 2 <==> s == Healthy
  {
  }

  /** A capability that is fit by itself but depends on something not assessed yet is judged unavailable. */
  lemma UnseenDependencyFails(r: seq<Capability>, o: Observations, i: nat, j: nat)
    requires DistinctIds(r) && i < |r| && j < |r| && i <= j && r[j].id in r[i].dependencies
    ensures Level(Assessed(r, o, map[])[i].health) == 0
  {
    AssessedAt(r, o, map[], i);
    StatesAreOf(r[..i], o, r[j].id);
    forall k | 0 <= k < i ensures r[..i][k].id != r[j].id {
      assert r[..i][k] == r[k];
    }
    DeriveTakesMinimum(r[i], o, States(r[..i], o, map[]));
  }

  lemma {:induction false} StatesAreOf(r: seq<Capability>, o: Observations, id: string)
    ensures id in States(r, o, map[]) <==> Listed(r, id)
    decreases |r|
  {
    if r != [] {
      var front := r[..|r| - 1];
      StatesAreOf(front, o, id);
      if Listed(front, id) {
        var k :| 0 <= k < |front| && front[k].id == id;
        assert r[k].id == id;
      }
      if Listed(r, id) && r[|r| - 1].id != id {
        var k :| 0 <= k < |r| && r[k].id == id;
        assert front[k].id == id;
      }
    }
  }

  lemma {:induction false} EarlierAllHealthy(r: seq<Capability>, o: Observations, i: nat)
    requires DistinctIds(r) && DependenciesFirst(r) && i < |r|
    requires forall k :: 0 <= k < |r| ==> LocalLevel(r[k], o) == 2
    requires forall k, d :: 0 <= k < |r| && d in r[k].dependencies ==> Listed(r, d)
    ensures Level(Assessed(r, o, map[])[i].health) == 2
    decreases i
  {
    AssessedTakesMinimum(r, o, map[], i);
    forall d | d in r[i].dependencies ensures Found(r, o, map[], d) == 2 {
      EarlierAllHealthy(r, o, Index(r, d));
    }
  }

  /**
   The order in which a registry is listed is decisive: when everything is fit by
   itself and every dependency is listed, all capabilities come out healthy
   exactly if each is listed after what it depends on.
   */
  lemma HealthyExactlyInOrder(r: seq<Capability>, o: Observations)
    requires DistinctIds(r)
    requires forall k :: 0 <= k < |r| ==> LocalLevel(r[k], o) == 2
    requires forall k, d :: 0 <= k < |r| && d in r[k].dependencies ==> Listed(r, d)
    ensures (forall i :: 0 <= i < |r| ==> Assessed(r, o, map[])[i].health == Healthy) <==> DependenciesFirst(r)
  {
    forall i | 0 <= i < |r|
      ensures Assessed(r, o, map[])[i].health == Healthy <==> Level(Assessed(r, o, map[])[i].health) == 2
    {
      AssessedAt(r, o, map[], i);
      HealthyMeansFull(Assessed(r, o, map[])[i].health);
    }
    if DependenciesFirst(r) {
      forall i | 0 <= i < |r| ensures Level(Assessed(r, o, map[])[i].health) == 2 { EarlierAllHealthy(r, o, i); }
    } else {
      var i, j :| 0 <= i < |r| && 0 <= j < |r| && r[j].id in r[i].dependencies && j >= i;
      UnseenDependencyFails(r, o, i, j);
    }
  }
}
