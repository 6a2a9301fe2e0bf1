/** Carrier sense and flooding in the simulated mesh (simulation.ts). */
module PacketNetwork {

  datatype Window = Window(start: real, end: real)

  predicate Overlaps(l: Window, r: Window) { l.start < r.end && r.start < l.end }

  // ----- sorting by start, then end -------------------------------------------------------------------

  predicate NotAfter(l: Window, r: Window) { l.start < r.start || (l.start == r.start && l.end <= r.end) }

  predicate Sorted(ws: seq<Window>) { forall i, j :: 0 <= i < j < |ws| ==> NotAfter(ws[i], ws[j]) }

  function Insert(ws: seq<Window>, w: Window): (r: seq<Window>)
    requires Sorted(ws)
    ensures Sorted(r) && |r| == |ws| + 1 && forall x :: x in r <==> x in ws || x == w
  {
    if ws == [] then [w]
    else if NotAfter(w, ws[0]) then [w] + ws
    else
      assert forall x :: x in ws[1..] ==> NotAfter(ws[0], x);
      var rest := Insert(ws[1..], w);
      assert forall k :: 0 <= k < |rest| ==> rest[k] in rest && NotAfter(ws[0], rest[k]);
      [ws[0]] + rest
  }

  function Sort(ws: seq<Window>): (r: seq<Window>)
    ensures Sorted(r) && |r| == |ws| && forall x :: x in r <==> x in ws
  {
    if ws == [] then [] else Insert(Sort(ws[1..]), ws[0])
  }

  // ----- carrier sense --------------------------------------------------------------------------------

  /** No open window overlaps a transmission of `airtime` starting at `start`. */
  predicate Free(ws: seq<Window>, start: real, airtime: real) {
    forall w :: w in ws ==> !Overlaps(w, Window(start, start + airtime))
  }

  function Open(ws: seq<Window>, now: real): (r: seq<Window>)
    ensures forall w :: w in r <==> w in ws && w.end > now
  {
    if ws == [] then []
    else if ws[|ws| - 1].end > now then Open(ws[..|ws| - 1], now) + [ws[|ws| - 1]]
    else Open(ws[..|ws| - 1], now)
  }

  /**
    The least start at or after `earliest` that overlaps no open window: the result is free, and every
    earlier start is not.
    */
  method NextCarrierFreeStart(ws: seq<Window>, now: real, earliest: real, airtime: real)
    returns (start: real, windows: seq<Window>)
    requires airtime > 0.0
    ensures windows == Open(ws, now)
    ensures earliest <= start && Free(windows, start, airtime)
    ensures forall t: real :: earliest <= t < start ==> !Free(windows, t, airtime)
    ensures now <= earliest ==> Free(ws, start, airtime)
  {
    windows := Open(ws, now);
    start := earliest;
    var sorted := Sort(windows);
    var i := 0;
    while i < |sorted|
      invariant 0 <= i <= |sorted| && earliest <= start
      invariant forall k :: 0 <= k < i ==> sorted[k].end <= start
      invariant forall t: real :: earliest <= t < start ==> !Free(windows, t, airtime)
    {
      var w := sorted[i];
      if w.start >= start + airtime { break; }
      if w.end > start {
        ghost var before := start;
        forall t: real | earliest <= t < w.end ensures !Free(windows, t, airtime) {
          if before <= t {
            assert w in windows && Overlaps(w, Window(t, t + airtime));
          }
        }
        start := w.end;
      }
      i := i + 1;
    }
    forall w | w in windows ensures !Overlaps(w, Window(start, start + airtime)) {
      var k :| 0 <= k < |sorted| && sorted[k] == w;
      if k >= i { assert sorted[i].start >= start + airtime && (k == i || NotAfter(sorted[i], sorted[k])); }
    }
  }

  /** The start found is the only one that is free with nothing free before it. */
  lemma EarliestFitUnique(ws: seq<Window>, earliest: real, airtime: real, a: real, b: real)
    requires earliest <= a && Free(ws, a, airtime) && forall t: real :: earliest <= t < a ==> !Free(ws, t, airtime)
    requires earliest <= b && Free(ws, b, airtime) && forall t: real :: earliest <= t < b ==> !Free(ws, t, airtime)
    ensures a == b
  {
    assert a < b ==> !Free(ws, a, airtime);
    assert b < a ==> !Free(ws, b, airtime);
  }

  /** Windows that have closed cannot be overlapped any more. */
  lemma ClosedAreFree(ws: seq<Window>, now: real, start: real, airtime: real)
    requires now <= start && Free(Open(ws, now), start, airtime)
    ensures Free(ws, start, airtime)
  {
  }

  // ----- the mesh -------------------------------------------------------------------------------------

  type RadioId = string

  datatype Packet = Packet(source: RadioId, dest: (RadioId, bool), airtime: real, forwarded: set<RadioId>, delivered: set<RadioId>)

  /** A packet's transmission by one radio, scheduled or done, after `hops` earlier ones. */
  datatype Hop = Hop(packet: nat, radio: RadioId, hops: nat, start: real)

  /** A packet on its way to one radio. */
  datatype Reception = Reception(packet: nat, radio: RadioId, hops: nat, start: real)

  datatype Arrival = Arrival(packet: nat, radio: RadioId)

  /** The windows of one radio's transmissions follow one another. */
  ghost predicate Successive(ws: seq<Window>) { forall i, j :: 0 <= i < j < |ws| ==> ws[i].end <= ws[j].start }

  ghost predicate Distinct(hs: seq<Hop>) {
    forall i, j :: 0 <= i < j < |hs| ==> hs[i].packet != hs[j].packet || hs[i].radio != hs[j].radio
  }

  /** Every scheduled or finished transmission was marked on its packet, below the hop limit. */
  ghost predicate Marked(hs: seq<Hop>, packets: seq<Packet>, limit: nat) {
    forall h :: h in hs ==> h.packet < |packets| && h.radio in packets[h.packet].forwarded && h.hops < limit
  }

  ghost predicate Received(rs: seq<Reception>, packets: seq<Packet>, limit: nat) {
    forall r :: r in rs ==> r.packet < |packets| && 0 < r.hops <= limit
  }

  ghost predicate DeliveredOnce(log: seq<Arrival>, packets: seq<Packet>) {
    && (forall a :: a in log ==> a.packet < |packets| && a.radio in packets[a.packet].delivered && a.radio != packets[a.packet].source)
    && (forall i, j :: 0 <= i < j < |log| ==> log[i] != log[j])
  }

  function At<V>(m: map<RadioId, seq<V>>, k: RadioId): seq<V> { if k in m then m[k] else [] }

  function Edges(m: map<RadioId, set<RadioId>>, k: RadioId): set<RadioId> { if k in m then m[k] else {} }

  class SimulatedPacketNetwork {
    const hopLimit: nat
    const propagationDelay: real
    const relayDelay: real
    const carrierSense: bool
    var now: real
    var edges: map<RadioId, set<RadioId>>
    var freeAt: map<RadioId, real>
    var carrier: map<RadioId, seq<Window>>
    var packets: seq<Packet>
    var scheduled: seq<Hop>
    var receptions: seq<Reception>
    // Everything ever transmitted and delivered.
    ghost var transmitted: map<RadioId, seq<Window>>
    ghost var done: seq<Hop>
    ghost var arrivals: seq<Arrival>

    ghost predicate Valid()
      reads this
    {
      && hopLimit > 0 && propagationDelay >= 0.0 && relayDelay >= 0.0
      && (forall p :: p in packets ==> p.airtime > 0.0 && p.source in p.delivered)
      && (forall r :: r in transmitted ==>
            Successive(transmitted[r]) && r in freeAt && forall w :: w in transmitted[r] ==> w.end <= freeAt[r])
      && Distinct(done + scheduled) && Marked(done + scheduled, packets, hopLimit)
      && Received(receptions, packets, hopLimit)
      && DeliveredOnce(arrivals, packets)
    }

    constructor (hopLimit: nat, propagationDelay: real, relayDelay: real, carrierSense: bool)
      requires hopLimit > 0 && propagationDelay >= 0.0 && relayDelay >= 0.0
      ensures Valid() && done == [] && scheduled == [] && arrivals == [] && transmitted == map[]
    {
      this.hopLimit, this.propagationDelay, this.relayDelay, this.carrierSense := hopLimit, propagationDelay, relayDelay, carrierSense;
      now, edges, freeAt, carrier := 0.0, map[], map[], map[];
      packets, scheduled, receptions := [], [], [];
      transmitted, done, arrivals := map[], [], [];
    }

    method Sense(radio: RadioId, earliest: real, airtime: real) returns (start: real)
      requires airtime > 0.0
      modifies `carrier
      ensures start >= earliest
      ensures carrierSense ==> Free(Open(At(old(carrier), radio), now), start, airtime)
      ensures carrierSense ==> forall t: real :: earliest <= t < start ==> !Free(Open(At(old(carrier), radio), now), t, airtime)
      ensures !carrierSense ==> start == earliest
      ensures carrier == if carrierSense then old(carrier)[radio := Open(At(old(carrier), radio), now)] else old(carrier)
    {
      start := earliest;
      if carrierSense {
        var windows;
        start, windows := NextCarrierFreeStart(At(carrier, radio), now, earliest, airtime);
        carrier := carrier[radio := windows];
      }
    }

    /** Radios in range hear the transmission after the propagation delay. */
    method AddNeighbourWindows(radio: RadioId, w: Window)
      modifies `carrier
      ensures forall r :: At(carrier, r) ==
                if r in Edges(edges, radio) then Open(At(old(carrier), r), now) + [w] else At(old(carrier), r)
    {
      var todo := Edges(edges, radio);
      while todo != {}
        invariant todo <= Edges(edges, radio)
        invariant forall r :: At(carrier, r) ==
                    if r in Edges(edges, radio) && r !in todo then Open(At(old(carrier), r), now) + [w] else At(old(carrier), r)
        decreases |todo|
      {
        var r :| r in todo;
        todo := todo - {r};
        carrier := carrier[r := Open(At(carrier, r), now) + [w]];
      }
    }

    /** Senses the carrier, backs off, and senses it again. */
    method FindSlot(radio: RadioId, earliest: real, airtime: real, backoff: real) returns (start: real)
      requires airtime > 0.0 && now <= earliest && backoff >= 0.0
      modifies `carrier
      ensures start >= earliest && (carrierSense ==> Free(At(old(carrier), radio), start, airtime))
      ensures forall r :: r != radio ==> At(carrier, r) == At(old(carrier), r)
    {
      start := Sense(radio, earliest, airtime);
      ghost var sensed := At(carrier, radio);
      start := Sense(radio, start + backoff, airtime);
      if carrierSense {
        ClosedAreFree(sensed, now, start, airtime);
        ClosedAreFree(At(old(carrier), radio), now, start, airtime);
      }
    }

    method AddCarrier(radio: RadioId, window: Window)
      modifies `carrier
      ensures forall r :: r in Edges(edges, radio) ==>
                Window(window.start + propagationDelay, window.end + propagationDelay) in At(carrier, r)
      ensures radio !in Edges(edges, radio) ==> window in At(carrier, radio)
    {
      carrier := carrier[radio := Open(At(carrier, radio), now) + [window]];
      AddNeighbourWindows(radio, Window(window.start + propagationDelay, window.end + propagationDelay));
    }

    /** The transmission fits after the radio's own ones and, sensing the carrier, beside every other it hears. */
    method ReserveTransmission(radio: RadioId, earliest: real, airtime: real, backoff: real) returns (start: real)
      requires Valid() && airtime > 0.0 && now <= earliest && backoff >= 0.0
      modifies `freeAt, `carrier, `transmitted
      ensures Valid() && start >= earliest
      ensures transmitted == old(transmitted)[radio := At(old(transmitted), radio) + [Window(start, start + airtime)]]
      ensures freeAt == old(freeAt)[radio := start + airtime]
      ensures carrierSense ==> Free(At(old(carrier), radio), start, airtime)
      ensures forall r :: r in Edges(edges, radio) ==>
                Window(start + propagationDelay, start + airtime + propagationDelay) in At(carrier, r)
      ensures radio !in Edges(edges, radio) ==> Window(start, start + airtime) in At(carrier, radio)
    {
      hide Free, Distinct, Marked, Received, DeliveredOnce;
      start := if radio in freeAt && freeAt[radio] > earliest then freeAt[radio] else earliest;
      start := FindSlot(radio, start, airtime, backoff);
      var window := Window(start, start + airtime);
      AddCarrier(radio, window);
      AppendSuccessive(At(transmitted, radio), window);
      freeAt := freeAt[radio := window.end];
      transmitted := transmitted[radio := At(transmitted, radio) + [window]];
    }

    /** A radio submits a packet: it is marked as forwarded and delivered at its source. */
    method Transmit(source: RadioId, dest: (RadioId, bool), airtime: real, backoff: real) returns (packet: nat)
      requires Valid() && airtime > 0.0 && backoff >= 0.0
      modifies this
      ensures Valid() && packet == |old(packets)|
      ensures packets == old(packets) + [Packet(source, dest, airtime, {source}, {source})]
      ensures done == old(done) && |scheduled| == |old(scheduled)| + 1 && scheduled[..|old(scheduled)|] == old(scheduled)
      ensures var h := scheduled[|old(scheduled)|]; h.packet == packet && h.radio == source && h.hops == 0
    {
      packet := |packets|;
      var start := ReserveTransmission(source, now, airtime, backoff);
      packets := packets + [Packet(source, dest, airtime, {source}, {source})];
      MarkedLonger(done + scheduled, old(packets), packets, hopLimit);
      Schedule(Hop(packet, source, 0, start));
    }

    method Schedule(h: Hop)
      requires hopLimit > h.hops && h.packet < |packets| && h.radio in packets[h.packet].forwarded
      requires forall x :: x in done + scheduled ==> x.packet != h.packet || x.radio != h.radio
      requires Distinct(done + scheduled) && Marked(done + scheduled, packets, hopLimit)
      modifies `scheduled
      ensures scheduled == old(scheduled) + [h]
      ensures Distinct(done + scheduled) && Marked(done + scheduled, packets, hopLimit)
    {
      ghost var all := done + scheduled;
      scheduled := scheduled + [h];
      assert done + scheduled == all + [h];
    }

    /** `transmitHop`: the scheduled transmission takes place and sets out to every neighbour. */
    method TransmitHop(index: nat)
      requires Valid() && index < |scheduled|
      modifies this
      ensures Valid() && packets == old(packets) && arrivals == old(arrivals)
      ensures done == old(done) + [old(scheduled)[index]]
      ensures scheduled == old(scheduled)[..index] + old(scheduled)[index + 1..]
      ensures |receptions| >= |old(receptions)| && receptions[..|old(receptions)|] == old(receptions)
      ensures forall r :: r in receptions[|old(receptions)|..] ==>
                r.packet == old(scheduled)[index].packet && r.hops == old(scheduled)[index].hops + 1
                && r.radio in Edges(edges, old(scheduled)[index].radio)
    {
      var h := scheduled[index];
      assert (done + scheduled)[|done| + index] == h;
      RunHop(done, scheduled, index, packets, hopLimit);
      done := done + [h];
      scheduled := scheduled[..index] + scheduled[index + 1..];
      var todo := Edges(edges, h.radio);
      while todo != {}
        modifies `receptions
        invariant todo <= Edges(edges, h.radio)
        invariant Received(receptions, packets, hopLimit)
        invariant |receptions| >= |old(receptions)| && receptions[..|old(receptions)|] == old(receptions)
        invariant forall r :: r in receptions[|old(receptions)|..] ==>
                    r.packet == h.packet && r.hops == h.hops + 1 && r.radio in Edges(edges, h.radio)
        decreases |todo|
      {
        var r :| r in todo;
        todo := todo - {r};
        receptions := receptions + [Reception(h.packet, r, h.hops + 1, h.start + propagationDelay)];
      }
    }

    predicate ShouldForward(p: Packet, radio: RadioId, hops: nat)
      reads `edges
    {
      hops < hopLimit && radio !in p.forwarded && p.dest != (radio, true)
      && exists n :: n in Edges(edges, radio) && n !in p.forwarded
    }

    /** The packet reaches its radio's application, the first time it arrives there intact. */
    method DeliverOnce(packet: nat, radio: RadioId)
      requires Valid() && packet < |packets|
      modifies `packets, `arrivals
      ensures Valid()
      ensures var p := old(packets)[packet];
              var deliver := radio !in p.delivered && (!p.dest.1 || p.dest.0 == radio);
              && arrivals == (if deliver then old(arrivals) + [Arrival(packet, radio)] else old(arrivals))
              && packets == old(packets)[packet := p.(delivered := if deliver then p.delivered + {radio} else p.delivered)]
    {
      var p := packets[packet];
      if radio in p.delivered || (p.dest.1 && p.dest.0 != radio) {
        assert packets[packet := p] == packets;
        return;
      }
      packets := packets[packet := p.(delivered := p.delivered + {radio})];
      arrivals := arrivals + [Arrival(packet, radio)];
    }

    /** The radio marks the packet as forwarded and schedules its transmission. */
    method Forward(packet: nat, radio: RadioId, hops: nat, backoff: real)
      requires Valid() && packet < |packets| && hops < hopLimit && radio !in packets[packet].forwarded && backoff >= 0.0
      modifies `packets, `scheduled, `freeAt, `carrier, `transmitted
      ensures Valid() && |scheduled| == |old(scheduled)| + 1 && scheduled[..|old(scheduled)|] == old(scheduled)
      ensures var h := scheduled[|old(scheduled)|]; h.packet == packet && h.radio == radio && h.hops == hops && h.start >= now + relayDelay
      ensures packets == old(packets)[packet := old(packets)[packet].(forwarded := old(packets)[packet].forwarded + {radio})]
    {
      var start := ReserveTransmission(radio, now + relayDelay, packets[packet].airtime, backoff);
      assert forall x :: x in done + scheduled ==> x.packet != packet || x.radio != radio;
      packets := packets[packet := packets[packet].(forwarded := packets[packet].forwarded + {radio})];
      Schedule(Hop(packet, radio, hops, start));
    }

    /** The end of a reception: an intact packet is delivered once and forwarded once. */
    method ReceptionEnds(index: nat, collided: bool, backoff: real)
      requires Valid() && index < |receptions| && backoff >= 0.0
      modifies this
      ensures Valid() && done == old(done)
      ensures receptions == old(receptions)[..index] + old(receptions)[index + 1..]
      ensures var r := old(receptions)[index];
              var p := old(packets)[r.packet];
              var deliver := !collided && r.radio !in p.delivered && (!p.dest.1 || p.dest.0 == r.radio);
              var forward := !collided && old(ShouldForward(packets[receptions[index].packet], receptions[index].radio, receptions[index].hops));
              && arrivals == (if deliver then old(arrivals) + [Arrival(r.packet, r.radio)] else old(arrivals))
              && packets == old(packets)[r.packet := p.(
                   delivered := if deliver then p.delivered + {r.radio} else p.delivered,
                   forwarded := if forward then p.forwarded + {r.radio} else p.forwarded)]
              && |scheduled| == |old(scheduled)| + (if forward then 1 else 0)
    {
      hide Distinct, Marked, DeliveredOnce, Successive;
      var r := receptions[index];
      receptions := receptions[..index] + receptions[index + 1..];
      assert forall x :: x in receptions ==> x in old(receptions);
      if collided {
        assert packets[r.packet := packets[r.packet]] == packets;
        return;
      }
      var forward := ShouldForward(packets[r.packet], r.radio, r.hops);
      DeliverOnce(r.packet, r.radio);
      if forward { Forward(r.packet, r.radio, r.hops, backoff); }
    }

    /** One radio's transmissions never overlap. */
    lemma OwnTransmissionsApart(radio: RadioId, i: nat, j: nat)
      requires Valid() && radio in transmitted && i < j < |transmitted[radio]|
      ensures !Overlaps(transmitted[radio][i], transmitted[radio][j])
    {
    }

    /** Each packet is transmitted at most once per radio, and within the hop limit. */
    lemma BoundedFlooding(i: nat, j: nat)
      requires Valid() && i < j < |done|
      ensures done[i].packet != done[j].packet || done[i].radio != done[j].radio
      ensures done[i].hops < hopLimit && done[j].hops < hopLimit
    {
      assert (done + scheduled)[i] == done[i] && (done + scheduled)[j] == done[j];
      assert done[i] in done + scheduled && done[j] in done + scheduled;
    }
  }

  lemma AppendSuccessive(ws: seq<Window>, w: Window)
    requires Successive(ws) && forall x :: x in ws ==> x.end <= w.start
    ensures Successive(ws + [w])
  {
  }

  lemma MarkedLonger(hs: seq<Hop>, packets: seq<Packet>, longer: seq<Packet>, limit: nat)
    requires Marked(hs, packets, limit) && packets <= longer
    ensures Marked(hs, longer, limit)
    ensures forall h :: h in hs ==> h.packet < |packets|
  {
  }

  lemma RunHop(done: seq<Hop>, scheduled: seq<Hop>, index: nat, packets: seq<Packet>, limit: nat)
    requires index < |scheduled| && Distinct(done + scheduled) && Marked(done + scheduled, packets, limit)
    ensures var d, s := done + [scheduled[index]], scheduled[..index] + scheduled[index + 1..];
            Distinct(d + s) && Marked(d + s, packets, limit)
  {
    var all := done + scheduled;
    var d, s := done + [scheduled[index]], scheduled[..index] + scheduled[index + 1..];
    forall h | h in d + s ensures h in all {
      var k :| 0 <= k < |d + s| && (d + s)[k] == h;
      assert h == all[From(|done|, index, k)];
    }
    forall i, j | 0 <= i < j < |d + s|
      ensures (d + s)[i].packet != (d + s)[j].packet || (d + s)[i].radio != (d + s)[j].radio
    {
      assert (d + s)[i] == all[From(|done|, index, i)] && (d + s)[j] == all[From(|done|, index, j)];
      assert From(|done|, index, i) != From(|done|, index, j);
    }
  }

  /** Where the element now at `k` was before the hop at `index` was run. */
  function From(done: nat, index: nat, k: nat): nat {
    if k < done then k else if k == done then done + index else if k - 1 < done + index then k - 1 else k
  }
}
