/** Feed demand: local reference counts, leases at the Gateway, and fences against old messages (subscriptions.ts, gateway.ts). */
module SubscriptionDemand {
  import opened Wrappers

  const SUBSCRIPTION_LEASE_MS: nat := 90_000
  const FEED_TRANSITION_FENCE_LIMIT: nat := 4096

  // A selector stands for its canonical text, which is what the source keys its maps with.
  type Selector = string

  datatype Action = Add | Renew | Remove

  /** A reported change: the selector became demanded, or stopped being demanded. */
  datatype Change = Change(active: bool, selector: Selector)

  function Replay(changes: seq<Change>): set<Selector> {
    if changes == [] then {}
    else
      var before := Replay(changes[..|changes| - 1]);
      var c := changes[|changes| - 1];
      if c.active then before + {c.selector} else before - {c.selector}
  }

  /** A change is worth reporting only when it changes something. */
  ghost predicate Minimal(changes: seq<Change>) {
    forall i :: 0 <= i < |changes| ==> (changes[i].selector in Replay(changes[..i]) <==> !changes[i].active)
  }

  lemma ReplayAppend(changes: seq<Change>, c: Change)
    ensures Replay(changes + [c]) == if c.active then Replay(changes) + {c.selector} else Replay(changes) - {c.selector}
    ensures Minimal(changes) && (c.selector in Replay(changes) <==> !c.active) ==> Minimal(changes + [c])
  {
    assert (changes + [c])[..|changes|] == changes;
    forall i | 0 <= i < |changes|
      ensures (changes + [c])[..i] == changes[..i]
    {
    }
  }

  lemma {:induction false} ReplayRemovals(changes: seq<Change>, gone: seq<Selector>)
    requires Minimal(changes) && (forall k :: k in gone ==> k in Replay(changes))
    requires forall i, j :: 0 <= i < j < |gone| ==> gone[i] != gone[j]
    ensures var n := changes + Removals(gone);
            Minimal(n) && Replay(n) == Replay(changes) - (set k | k in gone)
    decreases |gone|
  {
    if gone == [] {
      assert changes + [] == changes;
    } else {
      var rest := gone[..|gone| - 1];
      ReplayRemovals(changes, rest);
      var last := gone[|gone| - 1];
      ReplayAppend(changes + Removals(rest), Change(false, last));
      assert gone == rest + [last];
      assert changes + Removals(gone) == changes + Removals(rest) + [Change(false, last)];
    }
  }

  function Removals(gone: seq<Selector>): seq<Change> {
    if gone == [] then [] else Removals(gone[..|gone| - 1]) + [Change(false, gone[|gone| - 1])]
  }

  // ----- demand of local clients ----------------------------------------------------------------------

  function Wanted(byClient: map<string, set<Selector>>): set<Selector> {
    set c, k | c in byClient && k in byClient[c] :: k
  }

  lemma WantedMember(byClient: map<string, set<Selector>>, k: Selector)
    ensures k in Wanted(byClient) <==> exists c :: c in byClient && k in byClient[c]
  {
  }

  /** One client's set changed. */
  lemma WantedChanged(before: map<string, set<Selector>>, after: map<string, set<Selector>>, client: string, k: Selector)
    requires forall c, x :: c in after && x in after[c] && !(c == client && x == k) ==> c in before && x in before[c]
    requires forall c, x :: c in before && x in before[c] && !(c == client && x == k) ==> c in after && x in after[c]
    ensures forall x :: x != k ==> (x in Wanted(before) <==> x in Wanted(after))
  {
    forall x | x != k ensures x in Wanted(before) <==> x in Wanted(after) {
      WantedMember(before, x);
      WantedMember(after, x);
    }
  }

  /** `LocalSubscriptionDemand`: a selector is added with its first client and removed with its last. */
  class LocalSubscriptionDemand {
    var byClient: map<string, set<Selector>>
    ghost var changes: seq<Change>

    /** Replaying every reported change gives exactly what the clients want. */
    ghost predicate Valid()
      reads this
    {
      Minimal(changes) && Replay(changes) == Wanted(byClient) && forall c :: c in byClient ==> byClient[c] != {}
    }

    constructor ()
      ensures Valid() && byClient == map[] && changes == []
    {
      byClient := map[];
      changes := [];
    }

    method HasKey(k: Selector) returns (found: bool)
      ensures found <==> k in Wanted(byClient)
    {
      found := false;
      var clients := byClient.Keys;
      while clients != {} && !found
        invariant clients <= byClient.Keys
        invariant found ==> k in Wanted(byClient)
        invariant !found ==> forall c :: c in byClient && c !in clients ==> k !in byClient[c]
        decreases |clients|
      {
        var c :| c in clients;
        clients := clients - {c};
        found := k in byClient[c];
      }
    }

    method Subscribe(client: string, k: Selector) returns (reported: Option<Change>)
      requires Valid()
      modifies this
      ensures Valid()
      ensures Wanted(byClient) == Wanted(old(byClient)) + {k}
      ensures reported == if k in Wanted(old(byClient)) then None else Some(Change(true, k))
      ensures changes == if reported.Some? then old(changes) + [reported.value] else old(changes)
    {
      hide Wanted, Replay, Minimal;
      var existed := HasKey(k);
      var mine := if client in byClient then byClient[client] else {};
      byClient := byClient[client := mine + {k}];
      WantedChanged(old(byClient), byClient, client, k);
      WantedMember(byClient, k);
      assert byClient[client] == mine + {k};
      if existed { return None; }
      ReplayAppend(changes, Change(true, k));
      changes := changes + [Change(true, k)];
      return Some(Change(true, k));
    }

    method Unsubscribe(client: string, k: Selector) returns (reported: Option<Change>)
      requires Valid()
      modifies this
      ensures Valid()
      ensures forall c, x :: c in byClient && x in byClient[c] <==>
                c in old(byClient) && x in old(byClient)[c] && !(c == client && x == k)
      ensures reported == if client in old(byClient) && k in old(byClient)[client] && k !in Wanted(byClient)
                          then Some(Change(false, k)) else None
      ensures changes == if reported.Some? then old(changes) + [reported.value] else old(changes)
    {
      hide Wanted, Replay, Minimal;
      WantedMember(byClient, k);
      if client !in byClient || k !in byClient[client] { return None; }
      var mine := byClient[client] - {k};
      byClient := if mine == {} then byClient - {client} else byClient[client := mine];
      assert forall x :: x in old(byClient)[client] && x != k ==> x in mine;
      WantedChanged(old(byClient), byClient, client, k);
      WantedMember(old(byClient), k);
      var still := HasKey(k);
      if still { return None; }
      ReplayAppend(changes, Change(false, k));
      changes := changes + [Change(false, k)];
      return Some(Change(false, k));
    }

    /** A client goes away: what nobody else wants is reported as removed. */
    method Disconnect(client: string) returns (gone: seq<Selector>)
      requires Valid()
      modifies this
      ensures Valid() && byClient == old(byClient) - {client}
      ensures changes == old(changes) + Removals(gone)
      ensures forall k :: k in gone <==> k in Wanted(old(byClient)) && k !in Wanted(byClient)
    {
      gone := [];
      if client !in byClient {
        assert byClient - {client} == byClient;
        assert changes + [] == changes;
        return;
      }
      var mine := byClient[client];
      byClient := byClient - {client};
      var todo := mine;
      while todo != {}
        modifies {}
        invariant todo <= mine && byClient == old(byClient) - {client} && changes == old(changes)
        invariant forall k :: k in gone <==> k in mine && k !in todo && k !in Wanted(byClient)
        invariant forall i, j :: 0 <= i < j < |gone| ==> gone[i] != gone[j]
        decreases |todo|
      {
        var k :| k in todo;
        todo := todo - {k};
        var still := HasKey(k);
        if !still { gone := gone + [k]; }
      }
      ghost var before := Wanted(old(byClient));
      assert forall k :: k in mine ==> k in before;
      forall k | k in before && k !in mine ensures k in Wanted(byClient) {
        var c :| c in old(byClient) && k in old(byClient)[c];
        assert c in byClient && k in byClient[c];
      }
      assert Wanted(byClient) == before - (set k | k in gone);
      ReplayRemovals(changes, gone);
      changes := changes + Removals(gone);
    }
  }

  // ----- leases at the Gateway ------------------------------------------------------------------------

  type Leases = map<string, map<Selector, nat>>

  function LeaseAt(m: Leases, source: string, k: Selector): Option<nat> {
    if source in m && k in m[source] then Some(m[source][k]) else None
  }

  ghost predicate Unexpired(m: Leases, source: string, k: Selector, now: nat) {
    LeaseAt(m, source, k).Some? && LeaseAt(m, source, k).value > now
  }

  /** Some source holds an unexpired lease on `k`. */
  ghost predicate Demanded(m: Leases, k: Selector, now: nat) { exists s :: Unexpired(m, s, k, now) }

  ghost predicate Reported(changes: seq<Change>, active: set<Selector>) { Minimal(changes) && Replay(changes) == active }

  ghost predicate Covers(m: Leases, active: set<Selector>, now: nat) { forall k :: Demanded(m, k, now) ==> k in active }

  ghost predicate NonEmpty(m: Leases) { forall s :: s in m ==> m[s] != map[] }

  lemma ReportOne(changes: seq<Change>, active: set<Selector>, c: Change)
    requires Reported(changes, active) && (c.selector in active <==> !c.active)
    ensures Reported(changes + [c], if c.active then active + {c.selector} else active - {c.selector})
  {
    ReplayAppend(changes, c);
  }

  lemma ReportGone(changes: seq<Change>, active: set<Selector>, gone: seq<Selector>)
    requires Reported(changes, active) && (forall k :: k in gone ==> k in active)
    requires forall i, j :: 0 <= i < j < |gone| ==> gone[i] != gone[j]
    ensures Reported(changes + Removals(gone), active - (set k | k in gone))
  {
    ReplayRemovals(changes, gone);
  }

  lemma DemandShrinks(m: Leases, n: Leases, k: Selector, now: nat, later: nat)
    requires forall s :: Unexpired(n, s, k, later) ==> Unexpired(m, s, k, now)
    ensures Demanded(n, k, later) ==> Demanded(m, k, now)
  {
  }

  /** One source's lease on one selector after a message about it. */
  function Applied(m: Leases, source: string, action: Action, k: Selector, now: nat): Leases {
    var mine := if source in m then m[source] else map[];
    var next := if action.Remove? then mine - {k} else mine[k := now + SUBSCRIPTION_LEASE_MS];
    if next == map[] then m - {source} else m[source := next]
  }

  lemma AppliedLeases(m: Leases, source: string, action: Action, k: Selector, now: nat)
    requires NonEmpty(m)
    ensures var n := Applied(m, source, action, k, now);
            && NonEmpty(n)
            && (forall s, x :: LeaseAt(n, s, x) ==
                  if s == source && x == k then if action.Remove? then None else Some(now + SUBSCRIPTION_LEASE_MS)
                  else LeaseAt(m, s, x))
  {
    var mine := if source in m then m[source] else map[];
    var next := if action.Remove? then mine - {k} else mine[k := now + SUBSCRIPTION_LEASE_MS];
    assert forall x :: x in mine && x != k ==> x in next;
    assert !action.Remove? ==> k in next;
  }

  /** What the message does to demand: only its own selector can be affected, and only an addition can raise it. */
  lemma AppliedDemand(m: Leases, source: string, action: Action, k: Selector, clock: nat, now: nat)
    requires NonEmpty(m) && clock <= now
    ensures var n := Applied(m, source, action, k, now);
            && (forall x :: x != k && Demanded(n, x, now) ==> Demanded(m, x, clock))
            && (action.Remove? && Demanded(n, k, now) ==> Demanded(m, k, clock))
            && (!action.Remove? ==> Demanded(n, k, now))
  {
    var n := Applied(m, source, action, k, now);
    AppliedLeases(m, source, action, k, now);
    hide Applied;
    forall x | x != k ensures Demanded(n, x, now) ==> Demanded(m, x, clock) {
      DemandShrinks(m, n, x, clock, now);
    }
    if action.Remove? {
      DemandShrinks(m, n, k, clock, now);
    } else {
      assert Unexpired(n, source, k, now);
    }
  }

  lemma LeftCovers(m: Leases, n: Leases, active: set<Selector>, clock: nat, now: nat)
    requires clock <= now && Covers(m, active, clock)
    requires forall s, x :: LeaseAt(n, s, x) == if Unexpired(m, s, x, now) then LeaseAt(m, s, x) else None
    ensures Covers(n, active, now)
  {
    forall k | Demanded(n, k, now) ensures k in active {
      DemandShrinks(m, n, k, clock, now);
    }
  }

  lemma AppliedCovers(m: Leases, source: string, action: Action, k: Selector, clock: nat, now: nat, active: set<Selector>,
                      next: set<Selector>)
    requires NonEmpty(m) && clock <= now && Covers(m, active, clock)
    requires var n := Applied(m, source, action, k, now);
             next == if Demanded(n, k, now) then active + {k} else active - {k}
    ensures Covers(Applied(m, source, action, k, now), next, now)
    ensures action.Remove? && Demanded(Applied(m, source, action, k, now), k, now) ==> k in active
    ensures !action.Remove? ==> Demanded(Applied(m, source, action, k, now), k, now)
  {
    AppliedDemand(m, source, action, k, clock, now);
    hide Applied, Demanded;
  }

  /** `GatewaySubscriptionDemand` */
  class GatewaySubscriptionDemand {
    var bySource: Leases
    var active: set<Selector>
    ghost var clock: nat
    ghost var changes: seq<Change>

    /** Replaying the reported changes gives the active selectors, which contain every unexpired lease. */
    ghost predicate Valid()
      reads this
    {
      Reported(changes, active) && Covers(bySource, active, clock) && NonEmpty(bySource)
    }

    constructor ()
      ensures Valid() && bySource == map[] && active == {} && clock == 0 && changes == []
    {
      bySource, active, clock, changes := map[], {}, 0, [];
    }

    method IsDemanded(k: Selector, now: nat) returns (found: bool)
      ensures found <==> Demanded(bySource, k, now)
    {
      found := false;
      var sources := bySource.Keys;
      while sources != {} && !found
        invariant sources <= bySource.Keys
        invariant found ==> Demanded(bySource, k, now)
        invariant !found ==> forall s :: s !in sources ==> !Unexpired(bySource, s, k, now)
        decreases |sources|
      {
        var s :| s in sources;
        sources := sources - {s};
        found := k in bySource[s] && bySource[s][k] > now;
        assert found ==> Unexpired(bySource, s, k, now);
      }
    }

    /** One message of a source; the result says whether demand for the selector changed. */
    method Apply(source: string, action: Action, k: Selector, now: nat) returns (changed: bool)
      requires Valid() && clock <= now
      modifies this
      ensures Valid() && clock == now
      ensures forall s, x :: LeaseAt(bySource, s, x) ==
                if s == source && x == k then if action.Remove? then None else Some(now + SUBSCRIPTION_LEASE_MS)
                else LeaseAt(old(bySource), s, x)
      ensures k in active <==> Demanded(bySource, k, now)
      ensures forall x :: x != k ==> (x in active <==> x in old(active))
      ensures changed <==> (k in active) != (k in old(active))
      ensures changed ==> (!action.Remove? <==> k in active)
      ensures changes == if changed then old(changes) + [Change(!action.Remove?, k)] else old(changes)
    {
      hide Demanded, LeaseAt, Reported, Applied, Covers, NonEmpty;
      AppliedLeases(bySource, source, action, k, now);
      ghost var before := bySource;
      bySource := AppliedTo(bySource, source, action, k, now);
      var demanded := IsDemanded(k, now);
      AppliedCovers(before, source, action, k, clock, now, active, if demanded then active + {k} else active - {k});
      changed := SetActive(k, demanded);
      clock := now;
    }

    /** Demand for `k` is as told; a difference is a change to report. */
    method SetActive(k: Selector, demanded: bool) returns (changed: bool)
      requires Reported(changes, active)
      modifies `active, `changes
      ensures Reported(changes, active)
      ensures active == if demanded then old(active) + {k} else old(active) - {k}
      ensures changed <==> (k in old(active)) != demanded
      ensures changes == if changed then old(changes) + [Change(demanded, k)] else old(changes)
    {
      hide Reported;
      changed := (k in active) != demanded;
      if changed {
        ReportOne(changes, active, Change(demanded, k));
        changes := changes + [Change(demanded, k)];
      }
      assert !changed ==> active == if demanded then active + {k} else active - {k};
      active := if demanded then active + {k} else active - {k};
    }

    method AppliedTo(m: Leases, source: string, action: Action, k: Selector, now: nat) returns (n: Leases)
      ensures n == Applied(m, source, action, k, now)
    {
      var mine := if source in m then m[source] else map[];
      mine := if action.Remove? then mine - {k} else mine[k := now + SUBSCRIPTION_LEASE_MS];
      n := if mine == map[] then m - {source} else m[source := mine];
    }

    /** Leases that ran out are dropped; what nobody demands any more is reported. */
    method Expire(now: nat) returns (expired: seq<Selector>)
      requires Valid() && clock <= now
      modifies this
      ensures Valid() && clock == now
      ensures forall s, x :: LeaseAt(bySource, s, x) ==
                if Unexpired(old(bySource), s, x, now) then LeaseAt(old(bySource), s, x) else None
      ensures forall k :: k in active <==> Demanded(bySource, k, now)
      ensures changes == old(changes) + Removals(expired)
      ensures forall k :: k in expired <==> k in old(active) && k !in active
    {
      hide Reported, LeaseAt;
      ghost var before := bySource;
      bySource := WithoutExpired(bySource, now);
      LeftCovers(before, bySource, active, clock, now);
      hide Unexpired;
      expired := Undemanded(now);
      hide Demanded;
      ReportGone(changes, active, expired);
      active := active - (set k | k in expired);
      changes := changes + Removals(expired);
      clock := now;
    }

    /** The active selectors without an unexpired lease. */
    method Undemanded(now: nat) returns (gone: seq<Selector>)
      ensures forall k :: k in gone <==> k in active && !Demanded(bySource, k, now)
      ensures forall i, j :: 0 <= i < j < |gone| ==> gone[i] != gone[j]
    {
      hide Demanded;
      gone := [];
      var todo := active;
      while todo != {}
        invariant todo <= active
        invariant forall k :: k in gone <==> k in active && k !in todo && !Demanded(bySource, k, now)
        invariant forall i, j :: 0 <= i < j < |gone| ==> gone[i] != gone[j]
        decreases |todo|
      {
        var k :| k in todo;
        todo := todo - {k};
        var demanded := IsDemanded(k, now);
        if !demanded { gone := gone + [k]; }
      }
    }

    method WithoutExpired(m: Leases, now: nat) returns (n: Leases)
      requires NonEmpty(m)
      ensures NonEmpty(n)
      ensures forall s, x :: LeaseAt(n, s, x) == if Unexpired(m, s, x, now) then LeaseAt(m, s, x) else None
    {
      n := m;
      var sources := m.Keys;
      while sources != {}
        invariant sources <= m.Keys
        invariant forall s :: s in n ==> n[s] != map[]
        invariant forall s :: s in sources ==> s in n && n[s] == m[s]
        invariant forall s, x :: s !in sources ==> LeaseAt(n, s, x) == if Unexpired(m, s, x, now) then LeaseAt(m, s, x) else None
        decreases |sources|
      {
        var s :| s in sources;
        sources := sources - {s};
        var kept := map x | x in m[s] && m[s][x] > now :: m[s][x];
        assert kept == map[] ==> forall x :: x in m[s] ==> m[s][x] <= now by {
          assert forall x :: x in m[s] && m[s][x] > now ==> x in kept;
        }
        n := if kept == map[] then n - {s} else n[s := kept];
      }
    }

    /** What is demanded right now, expired leases aside. */
    method Aggregate(now: nat) returns (result: set<Selector>)
      ensures forall k :: k in result <==> Demanded(bySource, k, now)
    {
      result := {};
      var sources := bySource.Keys;
      while sources != {}
        invariant sources <= bySource.Keys
        invariant forall k :: k in result <==> exists s :: s !in sources && Unexpired(bySource, s, k, now)
        decreases |sources|
      {
        var s :| s in sources;
        sources := sources - {s};
        ghost var before := result;
        var more := set x | x in bySource[s] && bySource[s][x] > now;
        result := result + more;
        assert forall k :: k in more <==> Unexpired(bySource, s, k, now);
      }
    }
  }

  // ----- fences against old messages ------------------------------------------------------------------

  datatype Mark = Mark(generation: nat, session: string, sequence: nat)

  /** An accepted message and when it was applied. */
  datatype Accepted = Accepted(source: string, selector: Selector, mark: Mark, action: Action, at: nat)

  datatype Verdict = Ignored | AtCapacity | Unchanged | Changed(change: Change)

  predicate Newer(m: Mark, than: Mark) {
    m.generation > than.generation
    || (m.generation == than.generation && m.session == than.session && m.sequence > than.sequence)
  }

  type Newest = map<(string, Selector), Accepted>

  ghost predicate FencesOk(latest: map<(string, Selector), Mark>, newest: Newest, clock: nat) {
    && |latest| <= FEED_TRANSITION_FENCE_LIMIT
    && newest.Keys == latest.Keys
    && (forall p :: p in newest ==>
          newest[p].source == p.0 && newest[p].selector == p.1 && newest[p].mark == latest[p] && newest[p].at <= clock)
  }

  ghost predicate Holds(newest: Newest, source: string, k: Selector) {
    (source, k) in newest && !newest[(source, k)].action.Remove?
  }

  /** The newest message of a source about a selector decides its lease. */
  ghost predicate Decides(m: Leases, newest: Newest, clock: nat) {
    && (forall s, k :: LeaseAt(m, s, k).Some? ==>
          Holds(newest, s, k) && LeaseAt(m, s, k).value == newest[(s, k)].at + SUBSCRIPTION_LEASE_MS)
    && (forall s, k :: Holds(newest, s, k) && newest[(s, k)].at + SUBSCRIPTION_LEASE_MS > clock ==> LeaseAt(m, s, k).Some?)
  }

  /** Messages were accepted in the order their source sent them. */
  ghost predicate InOrder(accepted: seq<Accepted>, newest: Newest) {
    && (forall i :: 0 <= i < |accepted| ==>
          var p := (accepted[i].source, accepted[i].selector);
          p in newest && (newest[p].mark == accepted[i].mark || Newer(newest[p].mark, accepted[i].mark)))
    && (forall i, j ::
          (0 <= i < j < |accepted| && accepted[i].source == accepted[j].source
           && accepted[i].selector == accepted[j].selector) ==> Newer(accepted[j].mark, accepted[i].mark))
  }

  lemma FencesGrow(latest: map<(string, Selector), Mark>, newest: Newest, a: Accepted, clock: nat)
    requires FencesOk(latest, newest, clock) && clock <= a.at
    requires (a.source, a.selector) in latest || |latest| < FEED_TRANSITION_FENCE_LIMIT
    ensures FencesOk(latest[(a.source, a.selector) := a.mark], newest[(a.source, a.selector) := a], a.at)
  {
    var p := (a.source, a.selector);
    var n := latest[p := a.mark];
    assert n.Keys == latest.Keys + {p} && |n| == |n.Keys| && |latest| == |latest.Keys|;
    if p in latest {
      assert latest.Keys + {p} == latest.Keys;
    }
  }

  lemma FencedMark(latest: map<(string, Selector), Mark>, newest: Newest, p: (string, Selector), clock: nat)
    requires FencesOk(latest, newest, clock)
    ensures p in newest <==> p in latest
    ensures p in latest ==> newest[p].mark == latest[p]
  {
  }

  lemma DecidesApplied(m: Leases, n: Leases, newest: Newest, a: Accepted, clock: nat)
    requires Decides(m, newest, clock) && clock <= a.at
    requires forall s, x :: LeaseAt(n, s, x) ==
               if s == a.source && x == a.selector then if a.action.Remove? then None else Some(a.at + SUBSCRIPTION_LEASE_MS)
               else LeaseAt(m, s, x)
    ensures Decides(n, newest[(a.source, a.selector) := a], a.at)
  {
    hide LeaseAt;
    var next := newest[(a.source, a.selector) := a];
    forall s, k ensures Holds(next, s, k) <==> if s == a.source && k == a.selector then !a.action.Remove? else Holds(newest, s, k) {
    }
  }

  lemma OrderGrows(accepted: seq<Accepted>, newest: Newest, a: Accepted)
    requires InOrder(accepted, newest)
    requires var p := (a.source, a.selector); p in newest ==> Newer(a.mark, newest[p].mark)
    ensures InOrder(accepted + [a], newest[(a.source, a.selector) := a])
  {
  }

  lemma DecidesExpired(m: Leases, n: Leases, newest: Newest, clock: nat, now: nat)
    requires Decides(m, newest, clock) && clock <= now
    requires forall s, x :: LeaseAt(n, s, x) == if Unexpired(m, s, x, now) then LeaseAt(m, s, x) else None
    ensures Decides(n, newest, now)
  {
    hide LeaseAt, Holds;
  }

  lemma FencesLater(latest: map<(string, Selector), Mark>, newest: Newest, clock: nat, now: nat)
    requires FencesOk(latest, newest, clock) && clock <= now
    ensures FencesOk(latest, newest, now)
  {
  }

  /** `GatewayFeedDemand` */
  class GatewayFeedDemand {
    const demand: GatewaySubscriptionDemand
    var latest: map<(string, Selector), Mark>
    ghost var newest: Newest
    ghost var accepted: seq<Accepted>

    ghost predicate Valid()
      reads this, demand
    {
      && demand.Valid()
      && FencesOk(latest, newest, demand.clock)
      && Decides(demand.bySource, newest, demand.clock)
      && InOrder(accepted, newest)
    }

    constructor ()
      ensures Valid() && fresh(demand) && latest == map[] && accepted == []
    {
      demand := new GatewaySubscriptionDemand();
      latest := map[];
      newest := map[];
      accepted := [];
    }

    /** A subscription message addressed to the Gateway by an Asset. */
    method Apply(source: string, k: Selector, mark: Mark, action: Action, now: nat) returns (v: Verdict)
      requires Valid() && demand.clock <= now
      modifies this, demand
      ensures Valid()
      ensures var p := (source, k);
              var old_ := old(latest);
              if p in old_
                 && (|| mark.generation < old_[p].generation
                     || (mark.generation == old_[p].generation
                         && (mark.session != old_[p].session || mark.sequence <= old_[p].sequence))) then v == Ignored && latest == old_ && demand.bySource == old(demand.bySource)
                   && demand.active == old(demand.active)
              else if p !in old_ && |old_| >= FEED_TRANSITION_FENCE_LIMIT then v == AtCapacity && latest == old_
                   && demand.bySource == old(demand.bySource) && demand.active == old(demand.active)
              else && latest == old_[p := mark] && accepted == old(accepted) + [Accepted(source, k, mark, action, now)]
                   && (v.Changed? <==> (k in demand.active) != (k in old(demand.active)))
                   && (v.Changed? ==> v.change == Change(k in demand.active, k))
                   && (forall x :: x != k ==> (x in demand.active <==> x in old(demand.active)))
                   && (k in demand.active <==> Demanded(demand.bySource, k, now))
    {
      hide FencesOk, Decides, InOrder, Demanded, Reported, Covers, NonEmpty;
      var p := (source, k);
      FencedMark(latest, newest, p, demand.clock);
      if p in latest {
        var previous := latest[p];
        if mark.generation < previous.generation { return Ignored; }
        if mark.generation == previous.generation && (mark.session != previous.session || mark.sequence <= previous.sequence) {
          return Ignored;
        }
      } else if |latest| >= FEED_TRANSITION_FENCE_LIMIT {
        return AtCapacity;
      }
      ghost var message := Accepted(source, k, mark, action, now);
      ghost var before := demand.bySource;
      FencesGrow(latest, newest, message, demand.clock);
      OrderGrows(accepted, newest, message);
      var changed := demand.Apply(source, action, k, now);
      DecidesApplied(before, demand.bySource, newest, message, old(demand.clock));
      latest := latest[p := mark];
      newest := newest[p := message];
      accepted := accepted + [message];
      v := if changed then Changed(Change(!action.Remove?, k)) else Unchanged;
    }

    method ExpireLeases(now: nat) returns (expired: seq<Selector>)
      requires Valid() && demand.clock <= now
      modifies demand
      ensures Valid()
      ensures forall k :: k in demand.active <==> Demanded(demand.bySource, k, now)
      ensures forall k :: k in expired <==> k in old(demand.active) && k !in demand.active
    {
      hide Demanded;
      ghost var before, clock := demand.bySource, demand.clock;
      expired := demand.Expire(now);
      DecidesExpired(before, demand.bySource, newest, clock, now);
      FencesLater(latest, newest, clock, now);
    }

    /** At any time the newest message of a source, and nothing older, decides whether it still demands the feed. */
    lemma NewestDecides(source: string, k: Selector, now: nat)
      requires Valid() && demand.clock <= now
      ensures Unexpired(demand.bySource, source, k, now) <==>
                Holds(newest, source, k) && newest[(source, k)].at + SUBSCRIPTION_LEASE_MS > now
    {
    }
  }
}
