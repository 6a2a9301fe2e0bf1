/**
  Ordered Task dispatch per Asset (gateway.ts).  A refused send reports its failure at once, inside the
  send, and that report may wake other Assets: the methods below call each other as the source's do.
  */
module TaskDispatcher {
  import opened Wrappers
  import opened TaskOrder

  type Asset = string

  /** A delivery the transport accepted and has not settled. */
  datatype Flight = Flight(item: Item, op: string, failed: bool, retry: Option<Item>)

  /** What the transport makes of the n-th send. */
  datatype Outcome = Accepted(op: string) | RefusedForCapacity(op: string) | Refused(op: string)

  /** A send, with what was in flight for its Asset and what the transport made of it. */
  datatype Send = Send(asset: Asset, item: Item, engaged: Option<string>, cancelling: bool, outcome: Outcome)

  type Queues = map<Asset, seq<Item>>

  function QueueOf(m: Queues, a: Asset): seq<Item> { if a in m then m[a] else [] }

  function Ids(q: seq<Item>): set<string> { set x | x in q :: x.id }

  ghost predicate QueuesOk(m: Queues) { forall a :: a in m ==> DistinctIds(m[a]) && Sorted(m[a]) }

  ghost function Total(m: Queues): nat {
    if m == map[] then 0 else
      var a: Asset :| a in m;
      |m[a]| + Total(m - {a})
  }

  /** An assignment goes out only with no cancellation and no other Task's assignment in flight. */
  ghost predicate SendsOk(sends: seq<Send>) {
    forall s :: s in sends && !s.item.cancellation ==> !s.cancelling && (s.engaged.None? || s.engaged.value == s.item.id)
  }

  lemma SendsMore(sends: seq<Send>, s: Send)
    requires SendsOk(sends) && (s.item.cancellation || (!s.cancelling && (s.engaged.None? || s.engaged.value == s.item.id)))
    ensures SendsOk(sends + [s])
  {
  }

  // ----- totals ---------------------------------------------------------------------------------------

  lemma {:induction false} TotalDrop(m: Queues, a: Asset)
    requires a in m
    ensures Total(m) == |m[a]| + Total(m - {a})
    decreases |m|
  {
    var b :| b in m && Total(m) == |m[b]| + Total(m - {b});
    if a != b {
      TotalDrop(m - {b}, a);
      TotalDrop(m - {a}, b);
      assert m - {b} - {a} == m - {a} - {b};
    }
  }

  lemma TotalPut(m: Queues, a: Asset, q: seq<Item>)
    ensures Total(m[a := q]) == Total(m) - |QueueOf(m, a)| + |q|
  {
    TotalDrop(m[a := q], a);
    assert m[a := q] - {a} == m - {a};
    if a in m {
      TotalDrop(m, a);
    } else {
      assert m - {a} == m;
    }
  }

  lemma TotalRemove(m: Queues, a: Asset)
    ensures Total(m - {a}) == Total(m) - |QueueOf(m, a)|
  {
    if a in m {
      TotalDrop(m, a);
    } else {
      assert m - {a} == m;
    }
  }

  lemma {:induction false} IdsCount(q: seq<Item>)
    requires DistinctIds(q)
    ensures |Ids(q)| == |q|
  {
    if q != [] {
      var rest := q[..|q| - 1];
      IdsCount(rest);
      assert q == rest + [q[|q| - 1]];
      assert Ids(q) == Ids(rest) + {q[|q| - 1].id};
    } else {
      assert Ids(q) == {};
    }
  }

  // ----- queues only shrink from the front while sends are under way -----------------------------------

  ghost predicate Suffix(r: seq<Item>, q: seq<Item>) { |r| <= |q| && r == q[|q| - |r|..] }

  /** Each queue lost a front part at most, and those of `held` Assets nothing. */
  ghost predicate Drained(before: Queues, after: Queues, held: set<Asset>) {
    && (forall a :: Suffix(QueueOf(after, a), QueueOf(before, a)))
    && (forall a :: a in held ==> QueueOf(after, a) == QueueOf(before, a))
    && Total(after) <= Total(before)
  }

  lemma DrainedTrans(a: Queues, b: Queues, c: Queues, held: set<Asset>)
    requires Drained(a, b, held) && Drained(b, c, held)
    ensures Drained(a, c, held)
  {
    forall x ensures Suffix(QueueOf(c, x), QueueOf(a, x)) {
      assert Suffix(QueueOf(b, x), QueueOf(a, x)) && Suffix(QueueOf(c, x), QueueOf(b, x));
    }
  }

  lemma DrainedFewer(a: Queues, b: Queues, more: set<Asset>, held: set<Asset>)
    requires Drained(a, b, more) && held <= more
    ensures Drained(a, b, held)
  {
  }

  lemma SuffixOk(r: seq<Item>, q: seq<Item>)
    requires Suffix(r, q) && DistinctIds(q) && Sorted(q)
    ensures DistinctIds(r) && Sorted(r)
  {
    hide Before;
  }

  /** The head of one queue leaves it; an empty queue leaves the table. */
  function Shifted(m: Queues, a: Asset): Queues {
    if |QueueOf(m, a)| <= 1 then m - {a} else m[a := m[a][1..]]
  }

  lemma ShiftedDrains(m: Queues, a: Asset, held: set<Asset>)
    requires QueuesOk(m) && a !in held
    ensures QueuesOk(Shifted(m, a)) && Drained(m, Shifted(m, a), held) && Total(Shifted(m, a)) <= Total(m)
  {
    if |QueueOf(m, a)| <= 1 {
      TotalRemove(m, a);
    } else {
      TotalPut(m, a, m[a][1..]);
      SuffixOk(m[a][1..], m[a]);
    }
  }

  /**
    What a nested call leaves of the deliveries in flight: none is exchanged for another Task, a failed cancellation and
    a failure being retried stay noted, and nothing is assigned to an Asset beside a cancellation.
    */
  ghost predicate Continues(flights: map<Asset, Flight>, cancels: map<Asset, Flight>, retrying: set<Asset>,
                            nextFlights: map<Asset, Flight>, nextCancels: map<Asset, Flight>)
  {
    && (forall a :: a in flights ==> a in nextFlights && SameTask(nextFlights[a].item, flights[a].item))
    && (forall a :: a in flights && flights[a].failed && a in retrying ==> a in nextFlights && nextFlights[a].failed)
    && (forall a :: a in cancels && a !in flights ==> a !in nextFlights)
    && (forall a :: a in cancels ==>
          a in nextCancels && SameTask(nextCancels[a].item, cancels[a].item) && nextCancels[a].op == cancels[a].op
          && (cancels[a].failed ==> nextCancels[a].failed))
  }

  predicate SameTask(x: Item, y: Item) { x.id == y.id && x.cancellation == y.cancellation }

  lemma ContinuesTrans(f: map<Asset, Flight>, c: map<Asset, Flight>, retrying: set<Asset>, more: set<Asset>,
                       g: map<Asset, Flight>, d: map<Asset, Flight>, h: map<Asset, Flight>, e: map<Asset, Flight>)
    requires Continues(f, c, retrying, g, d) && Continues(g, d, more, h, e) && retrying <= more
    ensures Continues(f, c, retrying, h, e)
  {
  }

  // ----- where every delivery is afterwards -------------------------------------------------------------

  /** All that a call may change. */
  datatype Moment = Moment(queued: Queues, inFlight: map<Asset, Flight>, cancelling: map<Asset, Flight>, sends: seq<Send>)

  ghost predicate Grown(before: seq<Send>, after: seq<Send>) { |before| <= |after| && after[..|before|] == before }

  function News(before: seq<Send>, after: seq<Send>): seq<Send> { if |before| <= |after| then after[|before|..] else [] }

  /** The delivery was sent and left its queue: the transport took it or refused it for good. */
  predicate Went(news: seq<Send>, a: Asset, x: Item) {
    exists s :: s in news && s.asset == a && s.item == x && !s.outcome.RefusedForCapacity?
  }

  predicate SentAgain(news: seq<Send>, a: Asset, id: string) { exists s :: s in news && s.asset == a && s.item.id == id }

  /** What was queued is queued still, or was sent; but for what was replaced or withdrawn at one Asset. */
  ghost predicate AccountedBut(before: Queues, after: Queues, news: seq<Send>, at: Asset, ids: set<string>) {
    forall a, x :: x in QueueOf(before, a) && (a != at || x.id !in ids) ==> x in QueueOf(after, a) || Went(news, a, x)
  }

  ghost predicate Accounted(before: Queues, after: Queues, news: seq<Send>) {
    forall a, x :: x in QueueOf(before, a) ==> x in QueueOf(after, a) || Went(news, a, x)
  }

  predicate Aloft(flights: map<Asset, Flight>, cancels: map<Asset, Flight>, s: Send) {
    if s.item.cancellation then s.asset in cancels && SameTask(cancels[s.asset].item, s.item)
    else s.asset in flights && SameTask(flights[s.asset].item, s.item)
  }

  ghost predicate AllAloft(flights: map<Asset, Flight>, cancels: map<Asset, Flight>, news: seq<Send>) {
    forall s :: s in news && s.outcome.Accepted? ==> Aloft(flights, cancels, s)
  }

  predicate Taken(q: seq<Item>, x: Item) { exists y :: y in q && SameTask(y, x) }

  /** What is newly in flight was queued before. */
  ghost predicate FromQueue(q: Queues, before: map<Asset, Flight>, after: map<Asset, Flight>) {
    forall a :: a in after && a !in before ==> Taken(QueueOf(q, a), after[a].item)
  }

  /** A failed delivery stays marked until it is sent again. */
  ghost predicate Marked(before: map<Asset, Flight>, after: map<Asset, Flight>, news: seq<Send>) {
    forall a :: a in before && before[a].failed && a in after && !after[a].failed ==> SentAgain(news, a, before[a].item.id)
  }

  /** What happens while sends are under way: nothing gets lost, and nothing is taken out of flight. */
  ghost predicate Moves(m: Moment, n: Moment, held: set<Asset>, retrying: set<Asset>) {
    && Drained(m.queued, n.queued, held)
    && Continues(m.inFlight, m.cancelling, retrying, n.inFlight, n.cancelling)
    && Grown(m.sends, n.sends)
    && Accounted(m.queued, n.queued, News(m.sends, n.sends))
    && AllAloft(n.inFlight, n.cancelling, News(m.sends, n.sends))
    && FromQueue(m.queued, m.inFlight, n.inFlight) && FromQueue(m.queued, m.cancelling, n.cancelling)
    && Marked(m.inFlight, n.inFlight, News(m.sends, n.sends))
  }

  lemma NewsJoin(a: seq<Send>, b: seq<Send>, c: seq<Send>)
    requires Grown(a, b) && Grown(b, c)
    ensures Grown(a, c) && News(a, c) == News(a, b) + News(b, c)
  {
    assert c[..|a|] == c[..|b|][..|a|];
    assert c == c[..|b|] + c[|b|..];
  }

  lemma AccountedTrans(p: Queues, q: Queues, r: Queues, first: seq<Send>, second: seq<Send>)
    requires Accounted(p, q, first) && Accounted(q, r, second)
    ensures Accounted(p, r, first + second)
  {
  }

  lemma AccountedButTrans(p: Queues, q: Queues, r: Queues, first: seq<Send>, second: seq<Send>, at: Asset, ids: set<string>)
    requires AccountedBut(p, q, first, at, ids) && Accounted(q, r, second)
    ensures AccountedBut(p, r, first + second, at, ids)
  {
    forall a, x | x in QueueOf(p, a) && (a != at || x.id !in ids)
      ensures x in QueueOf(r, a) || Went(first + second, a, x)
    {
      assert x in QueueOf(q, a) || Went(first, a, x);
    }
  }

  lemma AloftTrans(f: map<Asset, Flight>, c: map<Asset, Flight>, g: map<Asset, Flight>, d: map<Asset, Flight>,
                   retrying: set<Asset>, first: seq<Send>, second: seq<Send>)
    requires AllAloft(f, c, first) && Continues(f, c, retrying, g, d) && AllAloft(g, d, second)
    ensures AllAloft(g, d, first + second)
  {
  }

  lemma FromQueueTrans(p: Queues, q: Queues, held: set<Asset>, f: map<Asset, Flight>, g: map<Asset, Flight>,
                       h: map<Asset, Flight>)
    requires Drained(p, q, held) && FromQueue(p, f, g) && FromQueue(q, g, h)
    requires forall a :: a in g ==> a in h && SameTask(h[a].item, g[a].item)
    ensures FromQueue(p, f, h)
  {
    hide Total;
    forall a | a in h && a !in f ensures Taken(QueueOf(p, a), h[a].item) {
      assert Suffix(QueueOf(q, a), QueueOf(p, a));
      if a in g {
        var y :| y in QueueOf(p, a) && SameTask(y, g[a].item);
        assert SameTask(y, h[a].item);
      } else {
        var y :| y in QueueOf(q, a) && SameTask(y, h[a].item);
        assert y in QueueOf(p, a);
      }
    }
  }

  lemma MarkedTrans(f: map<Asset, Flight>, g: map<Asset, Flight>, h: map<Asset, Flight>, first: seq<Send>, second: seq<Send>)
    requires Marked(f, g, first) && Marked(g, h, second)
    requires forall a :: a in f ==> a in g && SameTask(g[a].item, f[a].item)
    ensures Marked(f, h, first + second)
  {
  }

  lemma MovesTrans(a: Moment, b: Moment, c: Moment, held: set<Asset>, retrying: set<Asset>, more: set<Asset>, others: set<Asset>)
    requires Moves(a, b, held, retrying) && Moves(b, c, more, others) && held <= more && retrying <= others
    ensures Moves(a, c, held, retrying)
  {
    NewsJoin(a.sends, b.sends, c.sends);
    DrainedFewer(b.queued, c.queued, more, held);
    DrainedTrans(a.queued, b.queued, c.queued, held);
    ContinuesTrans(a.inFlight, a.cancelling, retrying, others, b.inFlight, b.cancelling, c.inFlight, c.cancelling);
    var first, second := News(a.sends, b.sends), News(b.sends, c.sends);
    AccountedTrans(a.queued, b.queued, c.queued, first, second);
    AloftTrans(b.inFlight, b.cancelling, c.inFlight, c.cancelling, others, first, second);
    ContinuesTasks(a, b, retrying);
    ContinuesTasks(b, c, others);
    FromQueueTrans(a.queued, b.queued, held, a.inFlight, b.inFlight, c.inFlight);
    FromQueueTrans(a.queued, b.queued, held, a.cancelling, b.cancelling, c.cancelling);
    MarkedTrans(a.inFlight, b.inFlight, c.inFlight, first, second);
    hide Drained, Continues, Accounted, AllAloft, FromQueue, Marked, Grown, News;
  }

  lemma ContinuesTasks(m: Moment, n: Moment, retrying: set<Asset>)
    requires Continues(m.inFlight, m.cancelling, retrying, n.inFlight, n.cancelling)
    ensures forall a :: a in m.inFlight ==> a in n.inFlight && SameTask(n.inFlight[a].item, m.inFlight[a].item)
    ensures forall a :: a in m.cancelling ==> a in n.cancelling && SameTask(n.cancelling[a].item, m.cancelling[a].item)
  {
  }

  lemma MovesSelf(m: Moment, held: set<Asset>, retrying: set<Asset>)
    ensures Moves(m, m, held, retrying)
  {
  }

  /** A send that is not accepted changes nothing by itself. */
  lemma MovesLogged(m: Moment, s: Send, held: set<Asset>, retrying: set<Asset>)
    requires !s.outcome.Accepted?
    ensures Moves(m, m.(sends := m.sends + [s]), held, retrying)
  {
    hide Total;
  }

  /** Deliveries get marked as failed, or their later version is noted or forgotten. */
  lemma MovesMarked(m: Moment, n: Moment, held: set<Asset>, retrying: set<Asset>)
    requires n == m.(inFlight := n.inFlight, cancelling := n.cancelling)
    requires n.inFlight.Keys == m.inFlight.Keys && n.cancelling.Keys == m.cancelling.Keys
    requires forall a :: a in m.inFlight ==>
               n.inFlight[a].item == m.inFlight[a].item && (m.inFlight[a].failed ==> n.inFlight[a].failed)
    requires forall a :: a in m.cancelling ==>
               n.cancelling[a].item == m.cancelling[a].item && n.cancelling[a].op == m.cancelling[a].op
               && (m.cancelling[a].failed ==> n.cancelling[a].failed)
    ensures Moves(m, n, held, retrying)
  {
    hide Total;
    assert forall a :: a in n.inFlight <==> a in m.inFlight;
    assert forall a :: a in n.cancelling <==> a in m.cancelling;
  }

  /** An accepted retry takes the place of the failed delivery. */
  lemma MovesRetried(m: Moment, a: Asset, item: Item, s: Send, held: set<Asset>, retrying: set<Asset>)
    requires a in m.inFlight && SameTask(item, m.inFlight[a].item) && a !in retrying && !item.cancellation
    requires s.asset == a && s.item == item && s.outcome.Accepted?
    ensures Moves(m, m.(inFlight := m.inFlight[a := Flight(item, s.outcome.op, false, None)], sends := m.sends + [s]), held,
                  retrying)
  {
    hide Total;
    var n := m.(inFlight := m.inFlight[a := Flight(item, s.outcome.op, false, None)], sends := m.sends + [s]);
    assert News(m.sends, n.sends) == [s];
    assert s in [s];
    assert SentAgain([s], a, m.inFlight[a].item.id);
  }

  /** The head of a queue leaves it: accepted it is in flight, refused for good it is dropped. */
  lemma MovesShifted(m: Moment, a: Asset, s: Send, held: set<Asset>)
    requires QueuesOk(m.queued) && a !in held && QueueOf(m.queued, a) != [] && s in m.sends
    requires s.asset == a && s.item == QueueOf(m.queued, a)[0] && !s.outcome.RefusedForCapacity?
    ensures Drained(m.queued, Shifted(m.queued, a), held) && QueuesOk(Shifted(m.queued, a))
    ensures forall news :: s in news ==> Accounted(m.queued, Shifted(m.queued, a), news)
  {
    ShiftedDrains(m.queued, a, held);
    hide Drained, QueuesOk, Total;
    forall news: seq<Send> | s in news ensures Accounted(m.queued, Shifted(m.queued, a), news) {
      forall b, x | x in QueueOf(m.queued, b) && x !in QueueOf(Shifted(m.queued, a), b) ensures Went(news, b, x) {
        assert b == a && x == s.item;
      }
    }
  }

  /** The accepted head of a queue is in flight. */
  lemma MovesAccepted(m: Moment, a: Asset, s: Send, held: set<Asset>, retrying: set<Asset>)
    requires QueuesOk(m.queued) && a !in held && QueueOf(m.queued, a) != []
    requires s.asset == a && s.item == QueueOf(m.queued, a)[0] && s.outcome.Accepted?
    requires if s.item.cancellation then a !in m.cancelling else a !in m.inFlight && a !in m.cancelling
    ensures Moves(m, Accepting(m, a, s), held, retrying)
  {
    hide Drained, Accounted, QueuesOk, Total, Shifted;
    var n := Accepting(m, a, s);
    var logged := m.(sends := m.sends + [s]);
    assert News(m.sends, n.sends) == [s] && s in [s];
    MovesShifted(logged, a, s, held);
    assert s.item in QueueOf(m.queued, a) && SameTask(s.item, s.item);
    assert Taken(QueueOf(m.queued, a), s.item);
  }

  function Accepting(m: Moment, a: Asset, s: Send): Moment {
    var flight := Flight(s.item, s.outcome.op, false, None);
    Moment(Shifted(m.queued, a),
           if s.item.cancellation then m.inFlight else m.inFlight[a := flight],
           if s.item.cancellation then m.cancelling[a := flight] else m.cancelling,
           m.sends + [s])
  }

  /** After a send refused for good, and all that happened inside it, the head leaves its queue. */
  lemma MovesDropped(m: Moment, n: Moment, a: Asset, s: Send, held: set<Asset>, retrying: set<Asset>)
    requires Moves(m, n, held + {a}, retrying) && QueuesOk(n.queued) && a !in held && QueueOf(m.queued, a) != []
    requires s.asset == a && s.item == QueueOf(m.queued, a)[0] && s.outcome.Refused? && s in News(m.sends, n.sends)
    ensures Moves(m, n.(queued := Shifted(n.queued, a)), held, retrying)
  {
    assert QueueOf(n.queued, a) == QueueOf(m.queued, a) by { hide Total; }
    assert s in n.sends;
    MovesShifted(n, a, s, held);
    var news := News(m.sends, n.sends);
    DrainedFewer(m.queued, n.queued, held + {a}, held);
    DrainedTrans(m.queued, n.queued, Shifted(n.queued, a), held);
    hide Drained, Continues, FromQueue, Marked, AllAloft, QueuesOk, Total;
    AccountedTwice(m.queued, n.queued, Shifted(n.queued, a), news);
  }

  lemma AccountedTwice(p: Queues, q: Queues, r: Queues, news: seq<Send>)
    requires Accounted(p, q, news) && Accounted(q, r, news)
    ensures Accounted(p, r, news)
  {
  }

  /** An empty queue leaves the table. */
  lemma MovesEmpty(m: Moment, a: Asset, held: set<Asset>, retrying: set<Asset>)
    requires QueueOf(m.queued, a) == []
    ensures Moves(m, m.(queued := m.queued - {a}), held, retrying)
  {
    TotalRemove(m.queued, a);
    hide Total;
    var n := m.queued - {a};
    assert forall b :: QueueOf(n, b) == QueueOf(m.queued, b);
    assert QueueOf(n, a) == [];
  }

  // ----- what the methods below come to -----------------------------------------------------------------

  /** The head of the queue is not forbidden by what is in flight. */
  predicate MayGo(m: Moment, a: Asset) {
    QueueOf(m.queued, a) != [] &&
    (if QueueOf(m.queued, a)[0].cancellation then a !in m.cancelling else a !in m.inFlight && a !in m.cancelling)
  }

  /** The head of the queue was sent: taken it is in flight, refused for good it is dropped, else it stays. */
  ghost predicate HeadSent(m: Moment, n: Moment, a: Asset) {
    && QueueOf(m.queued, a) != [] && |n.sends| > |m.sends|
    && var s := n.sends[|m.sends|];
       && s.asset == a && s.item == QueueOf(m.queued, a)[0]
       && match s.outcome
          case Accepted(_) => n == Accepting(m, a, s)
          case RefusedForCapacity(_) => QueueOf(n.queued, a) == QueueOf(m.queued, a)
          case Refused(_) => QueueOf(n.queued, a) == QueueOf(m.queued, a)[1..]
  }

  lemma AcceptedHead(m: Moment, n: Moment, a: Asset, s: Send)
    requires QueueOf(m.queued, a) != [] && s.asset == a && s.item == QueueOf(m.queued, a)[0] && s.outcome.Accepted?
    requires n.queued == Shifted(m.queued, a) && n.sends == m.sends + [s]
    requires var flight := Flight(s.item, s.outcome.op, false, None);
             && n.inFlight == (if s.item.cancellation then m.inFlight else m.inFlight[a := flight])
             && n.cancelling == (if s.item.cancellation then m.cancelling[a := flight] else m.cancelling)
    ensures n == Accepting(m, a, s) && HeadSent(m, n, a)
  {
    hide Shifted;
  }

  lemma RefusedHead(m: Moment, n: Moment, a: Asset, s: Send)
    requires QueueOf(m.queued, a) != [] && s.asset == a && s.item == QueueOf(m.queued, a)[0] && !s.outcome.Accepted?
    requires |n.sends| > |m.sends| && n.sends[|m.sends|] == s
    requires QueueOf(n.queued, a) == if s.outcome.Refused? then QueueOf(m.queued, a)[1..] else QueueOf(m.queued, a)
    ensures HeadSent(m, n, a)
  {
  }

  /** The assignment is under way anew, or failed with this version of the Task noted for the next try. */
  ghost predicate Retried(m: Moment, n: Moment, a: Asset, item: Item) {
    && a in n.inFlight && n.inFlight[a].item.id == item.id
    && (if n.inFlight[a].failed then n.inFlight[a].retry == Some(item)
        else n.inFlight[a].item == item && n.inFlight[a].retry.None?)
    && (a !in m.cancelling ==> SentAgain(News(m.sends, n.sends), a, item.id))
  }

  lemma SameId(x: Item, y: Item)
    requires SameTask(x, y)
    ensures x.id == y.id
  {
  }

  lemma SameAgain(x: Item, y: Item)
    requires x.id == y.id && !x.cancellation && !y.cancellation
    ensures SameTask(x, y)
  {
  }

  lemma SetTwice(m: map<Asset, Flight>, a: Asset, x: Flight, y: Flight)
    ensures m[a := x][a := y] == m[a := y]
  {
  }

  lemma AgainAccepted(m: Moment, n: Moment, a: Asset, item: Item, entry: Send, held: set<Asset>, retrying: set<Asset>)
    requires a in m.inFlight && SameTask(item, m.inFlight[a].item) && a !in retrying && !item.cancellation
    requires entry.asset == a && entry.item == item && entry.outcome.Accepted?
    requires n.queued == m.queued && n.cancelling == m.cancelling && n.sends == m.sends + [entry]
    requires n.inFlight == m.inFlight[a := Flight(item, entry.outcome.op, false, None)]
    ensures Moves(m, n, held, retrying) && Retried(m, n, a, item)
  {
    hide Moves;
    MovesRetried(m, a, item, entry, held, retrying);
    assert News(m.sends, n.sends) == [entry] && entry in [entry];
  }

  lemma AgainRefused(m: Moment, cleared: Moment, sent: Moment, n: Moment, a: Asset, item: Item, entry: Send,
                     held: set<Asset>, retrying: set<Asset>)
    requires Moves(m, cleared, held, retrying) && Moves(cleared, sent, held, retrying + {a}) && cleared.sends == m.sends
    requires |sent.sends| > |cleared.sends| && sent.sends[|cleared.sends|] == entry
    requires entry.asset == a && entry.item == item
    requires a in sent.inFlight && sent.inFlight[a].failed && sent.inFlight[a].item.id == item.id
    requires n == sent.(inFlight := sent.inFlight[a := sent.inFlight[a].(retry := Some(item))])
    ensures Moves(m, n, held, retrying) && Retried(m, n, a, item)
  {
    hide Moves;
    FirstNews(cleared, sent, entry, held, retrying + {a});
    MovesMarked(sent, n, held, retrying);
    MovesTrans(m, cleared, sent, held, retrying, held, retrying + {a});
    MovesTrans(m, sent, n, held, retrying, held, retrying);
  }

  ghost predicate Concerned(flights: map<Asset, Flight>, op: string) { exists a :: a in flights && flights[a].op == op }

  /** The delivery whose operation failed is marked; a cancellation is looked for first. */
  ghost predicate FailureMarked(m: Moment, n: Moment, op: string, hit: Option<Asset>) {
    && n.queued == m.queued && n.sends == m.sends
    && if Concerned(m.cancelling, op) then
         && hit.Some? && hit.value in m.cancelling && m.cancelling[hit.value].op == op && n.inFlight == m.inFlight
         && n.cancelling == m.cancelling[hit.value := m.cancelling[hit.value].(failed := true)]
       else if Concerned(m.inFlight, op) then
         && hit.Some? && hit.value in m.inFlight && m.inFlight[hit.value].op == op && n.cancelling == m.cancelling
         && n.inFlight == m.inFlight[hit.value := m.inFlight[hit.value].(failed := true)]
       else hit.None? && n == m
  }

  /** The delivery whose operation failed is still in flight, and marked unless it was sent again meanwhile. */
  ghost predicate FailureNoted(m: Moment, n: Moment, op: string) {
    if Concerned(m.cancelling, op) then
      exists a :: a in m.cancelling && m.cancelling[a].op == op
                  && a in n.cancelling && SameTask(n.cancelling[a].item, m.cancelling[a].item) && n.cancelling[a].failed
    else if Concerned(m.inFlight, op) then
      exists a :: a in m.inFlight && m.inFlight[a].op == op
                  && a in n.inFlight && SameTask(n.inFlight[a].item, m.inFlight[a].item)
                  && (n.inFlight[a].failed || SentAgain(News(m.sends, n.sends), a, m.inFlight[a].item.id))
    else true
  }

  lemma NotedAfter(m: Moment, marked: Moment, n: Moment, op: string, hit: Option<Asset>, held: set<Asset>,
                   retrying: set<Asset>)
    requires FailureMarked(m, marked, op, hit) && Moves(marked, n, held, retrying)
    ensures FailureNoted(m, n, op)
  {
    hide Drained, Accounted, AllAloft, FromQueue, Total;
  }

  ghost predicate Stays(before: map<Asset, Flight>, after: map<Asset, Flight>) {
    forall x :: x in before ==> x in after && SameTask(after[x].item, before[x].item)
  }

  /** One Asset's delivery left its place, which is free or taken by what was queued; all others stay. */
  ghost predicate Vacates(q: Queues, before: map<Asset, Flight>, after: map<Asset, Flight>, a: Asset) {
    && (forall x :: x in before && x != a ==> x in after && SameTask(after[x].item, before[x].item))
    && (a in after ==> Taken(QueueOf(q, a), after[a].item))
  }

  /** Exactly a delivery of the settled operation, if one is in flight, has left its place. */
  ghost predicate Leaves(m: Moment, n: Moment, op: string) {
    if Concerned(m.cancelling, op) then
      && (exists a :: a in m.cancelling && m.cancelling[a].op == op && Vacates(m.queued, m.cancelling, n.cancelling, a))
      && Stays(m.inFlight, n.inFlight)
    else if Concerned(m.inFlight, op) then
      && (exists a :: a in m.inFlight && m.inFlight[a].op == op && Vacates(m.queued, m.inFlight, n.inFlight, a))
      && Stays(m.cancelling, n.cancelling)
    else Stays(m.inFlight, n.inFlight) && Stays(m.cancelling, n.cancelling)
  }

  lemma LeavesAfter(m: Moment, left: Moment, n: Moment, op: string, c: Option<Asset>, hit: Option<Asset>)
    requires Moves(left, n, {}, {})
    requires if c.Some? then hit == c && c.value in m.cancelling && m.cancelling[c.value].op == op
             else (!Concerned(m.cancelling, op)
                   && if hit.Some? then hit.value in m.inFlight && m.inFlight[hit.value].op == op else !Concerned(m.inFlight, op))
    requires left == if c.Some? then m.(cancelling := m.cancelling - {c.value})
                     else if hit.Some? then m.(inFlight := m.inFlight - {hit.value}) else m
    ensures Leaves(m, n, op)
  {
    hide Drained, Accounted, AllAloft, Marked, Total;
    if c.Some? {
      assert Vacates(m.queued, m.cancelling, n.cancelling, c.value);
    } else if hit.Some? {
      assert Vacates(m.queued, m.inFlight, n.inFlight, hit.value);
    }
  }

  lemma MovesParts(m: Moment, n: Moment, held: set<Asset>, retrying: set<Asset>)
    requires Moves(m, n, held, retrying)
    ensures Drained(m.queued, n.queued, held) && Grown(m.sends, n.sends)
    ensures Accounted(m.queued, n.queued, News(m.sends, n.sends)) && Stays(m.inFlight, n.inFlight)
    ensures Stays(m.cancelling, n.cancelling)
    ensures FromQueue(m.queued, m.inFlight, n.inFlight) && FromQueue(m.queued, m.cancelling, n.cancelling)
  {
    hide Drained, Accounted, AllAloft, Marked, Total, FromQueue;
  }

  lemma LoggedFirst(sends: seq<Send>, entry: Send, logged: Moment, n: Moment, held: set<Asset>, retrying: set<Asset>)
    requires logged.sends == sends + [entry] && Moves(logged, n, held, retrying)
    ensures |n.sends| > |sends| && n.sends[|sends|] == entry
  {
    hide Drained, Continues, Accounted, AllAloft, Marked, Total, FromQueue;
    assert n.sends[..|logged.sends|][|sends|] == entry;
  }

  lemma FirstNews(m: Moment, n: Moment, entry: Send, held: set<Asset>, retrying: set<Asset>)
    requires Moves(m, n, held, retrying) && |n.sends| > |m.sends| && n.sends[|m.sends|] == entry
    ensures News(m.sends, n.sends) != [] && News(m.sends, n.sends)[0] == entry && entry in News(m.sends, n.sends)
  {
    hide Drained, Continues, Accounted, AllAloft, Marked, Total, FromQueue;
  }

  lemma StillFailing(m: Moment, n: Moment, a: Asset, held: set<Asset>, retrying: set<Asset>)
    requires Moves(m, n, held, retrying) && a in m.inFlight && m.inFlight[a].failed && a in retrying
    ensures a in n.inFlight && SameTask(n.inFlight[a].item, m.inFlight[a].item) && n.inFlight[a].failed
  {
    hide Drained, Accounted, AllAloft, Marked, Total, FromQueue;
  }

  lemma MovesHeld(m: Moment, n: Moment, more: set<Asset>, held: set<Asset>, retrying: set<Asset>)
    requires Moves(m, n, more, retrying) && held <= more
    ensures Moves(m, n, held, retrying)
  {
    DrainedFewer(m.queued, n.queued, more, held);
    hide Drained, Continues, Accounted, AllAloft, Marked, Total, FromQueue;
  }

  lemma HeldQueue(m: Moment, n: Moment, a: Asset, held: set<Asset>, retrying: set<Asset>)
    requires Moves(m, n, held, retrying) && a in held
    ensures QueueOf(n.queued, a) == QueueOf(m.queued, a)
  {
    hide Continues, Accounted, AllAloft, Marked, Total, FromQueue;
  }

  lemma ShiftedAt(q: Queues, a: Asset)
    requires QueueOf(q, a) != []
    ensures QueueOf(Shifted(q, a), a) == QueueOf(q, a)[1..]
  {
  }

  // ----- withdrawing a Task -----------------------------------------------------------------------------

  /** Nothing of the Task is in flight for the Asset; every other delivery stays, and what was queued is or was sent. */
  ghost predicate Withdraws(m: Moment, n: Moment, a: Asset, id: string) {
    && Drained(m.queued, n.queued, {}) && Grown(m.sends, n.sends)
    && Accounted(m.queued, n.queued, News(m.sends, n.sends))
    && FlightId(n.inFlight, a) != Some(id) && FlightId(n.cancelling, a) != Some(id)
    && StaysBut(m.inFlight, n.inFlight, a, id) && StaysBut(m.cancelling, n.cancelling, a, id)
  }

  ghost predicate StaysBut(before: map<Asset, Flight>, after: map<Asset, Flight>, a: Asset, id: string) {
    forall x :: x in before && (x != a || before[x].item.id != id) ==> x in after && SameTask(after[x].item, before[x].item)
  }

  /** What is in flight afterwards is not of a Task that neither was in flight nor queued. */
  lemma NotTaken(q: Queues, before: map<Asset, Flight>, after: map<Asset, Flight>, a: Asset, id: string)
    requires Stays(before, after) && FromQueue(q, before, after)
    requires FlightId(before, a) != Some(id) && id !in Ids(QueueOf(q, a))
    ensures FlightId(after, a) != Some(id)
  {
    if a in after && a !in before {
      var y :| y in QueueOf(q, a) && SameTask(y, after[a].item);
      assert y.id in Ids(QueueOf(q, a));
    }
  }

  lemma SuffixIds(p: Queues, q: Queues, a: Asset, id: string)
    requires Drained(p, q, {}) && id !in Ids(QueueOf(p, a))
    ensures id !in Ids(QueueOf(q, a))
  {
    hide Total;
    assert Suffix(QueueOf(q, a), QueueOf(p, a));
  }

  lemma Withdrawn(m: Moment, called: Moment, first: Moment, again: Moment, n: Moment, a: Asset, id: string)
    requires id !in Ids(QueueOf(m.queued, a)) && Moves(m, called, {}, {}) && Moves(first, again, {}, {})
    requires if FlightId(m.inFlight, a) == Some(id) then first == called.(inFlight := called.inFlight - {a})
             else called == m && first == m
    requires if FlightId(first.cancelling, a) == Some(id) then n == again.(cancelling := again.cancelling - {a})
             else again == first && n == first
    ensures Withdraws(m, n, a, id)
  {
    MovesParts(m, called, {}, {});
    MovesParts(first, again, {}, {});
    NewsJoin(m.sends, called.sends, again.sends);
    DrainedTrans(m.queued, called.queued, again.queued, {});
    AccountedTrans(m.queued, called.queued, again.queued, News(m.sends, called.sends), News(called.sends, again.sends));
    SuffixIds(m.queued, called.queued, a, id);
    WithdrawnFlights(m, called, first, again, n, a, id);
    hide Moves, Drained, Accounted, Total, Ids, FromQueue, Grown, News;
  }

  lemma WithdrawnFlights(m: Moment, called: Moment, first: Moment, again: Moment, n: Moment, a: Asset, id: string)
    requires id !in Ids(QueueOf(m.queued, a)) && id !in Ids(QueueOf(called.queued, a))
    requires Moves(m, called, {}, {}) && Moves(first, again, {}, {})
    requires if FlightId(m.inFlight, a) == Some(id) then first == called.(inFlight := called.inFlight - {a})
             else called == m && first == m
    requires if FlightId(first.cancelling, a) == Some(id) then n == again.(cancelling := again.cancelling - {a})
             else again == first && n == first
    ensures FlightId(n.inFlight, a) != Some(id) && FlightId(n.cancelling, a) != Some(id)
    ensures StaysBut(m.inFlight, n.inFlight, a, id) && StaysBut(m.cancelling, n.cancelling, a, id)
  {
    hide Moves, FromQueue, Ids;
    MovesParts(m, called, {}, {});
    MovesParts(first, again, {}, {});
    NotTaken(first.queued, first.inFlight, again.inFlight, a, id);
  }

  lemma {:induction false} WithoutAccounts(m: Queues, a: Asset, id: string)
    ensures AccountedBut(m, WithoutTask(m, a, id), [], a, {id})
  {
    OthersAre(QueueOf(m, a), id);
  }

  /** The Task is queued no more and nothing of it is in flight; every other delivery is queued still or was sent. */
  ghost predicate Ends(m: Moment, n: Moment, a: Asset, id: string) {
    && id !in Ids(QueueOf(n.queued, a)) && FlightId(n.inFlight, a) != Some(id) && FlightId(n.cancelling, a) != Some(id)
    && AccountedBut(m.queued, n.queued, News(m.sends, n.sends), a, {id})
    && StaysBut(m.inFlight, n.inFlight, a, id) && StaysBut(m.cancelling, n.cancelling, a, id)
  }

  lemma StaysOn(m: Moment, b: Moment, n: Moment, a: Asset, id: string)
    requires StaysBut(m.inFlight, b.inFlight, a, id) && StaysBut(m.cancelling, b.cancelling, a, id)
    requires Stays(b.inFlight, n.inFlight) && Stays(b.cancelling, n.cancelling)
    ensures StaysBut(m.inFlight, n.inFlight, a, id) && StaysBut(m.cancelling, n.cancelling, a, id)
  {
  }

  lemma EndedAfter(m: Moment, removed: Moment, retired: Moment, n: Moment, a: Asset, id: string)
    requires removed == m.(queued := WithoutTask(m.queued, a, id)) && id !in Ids(QueueOf(removed.queued, a))
    requires Withdraws(removed, retired, a, id) && Moves(retired, n, {}, {})
    ensures Ends(m, n, a, id)
  {
    WithoutAccounts(m.queued, a, id);
    MovesParts(retired, n, {}, {});
    NewsJoin(m.sends, retired.sends, n.sends);
    var first, second := News(m.sends, retired.sends), News(retired.sends, n.sends);
    AccountedAfterBut(m.queued, removed.queued, retired.queued, first, a, {id});
    AccountedButTrans(m.queued, retired.queued, n.queued, first, second, a, {id});
    SuffixIds(removed.queued, retired.queued, a, id);
    SuffixIds(retired.queued, n.queued, a, id);
    NotTaken(retired.queued, retired.inFlight, n.inFlight, a, id);
    NotTaken(retired.queued, retired.cancelling, n.cancelling, a, id);
    StaysOn(m, retired, n, a, id);
    hide Moves, Drained, Accounted, AccountedBut, Total, Ids, FromQueue, Grown, News, WithoutTask, Stays, StaysBut;
  }

  lemma AccountedAfterBut(p: Queues, q: Queues, r: Queues, news: seq<Send>, at: Asset, ids: set<string>)
    requires AccountedBut(p, q, [], at, ids) && Accounted(q, r, news)
    ensures AccountedBut(p, r, news, at, ids)
  {
    forall a, x | x in QueueOf(p, a) && (a != at || x.id !in ids) ensures x in QueueOf(r, a) || Went(news, a, x) {
      assert x in QueueOf(q, a) || Went([], a, x);
    }
  }

  // ----- a cancellation ---------------------------------------------------------------------------------

  /**
    The cancellation stands first in the queue or was sent, nothing else of its Task is queued or assigned, and every
    other delivery is queued still or was sent, and in flight still if it was.
    */
  ghost predicate Cancels(m: Moment, n: Moment, a: Asset, item: Item) {
    var q := QueueOf(n.queued, a);
    && ((q != [] && q[0] == item) || Went(News(m.sends, n.sends), a, item))
    && (forall x :: x in q && x.id == item.id ==> x == item)
    && FlightId(n.inFlight, a) != Some(item.id)
    && AccountedBut(m.queued, n.queued, News(m.sends, n.sends), a, {item.id})
    && StaysBut(m.inFlight, n.inFlight, a, item.id) && StaysBut(m.cancelling, n.cancelling, a, item.id)
  }

  /** A queue drained from its front holds its first item only if it holds all. */
  lemma FirstStays(r: seq<Item>, item: Item, rest: seq<Item>)
    requires Suffix(r, [item] + rest) && item.id !in Ids(rest)
    ensures item in r ==> r != [] && r[0] == item
    ensures forall x :: x in r && x.id == item.id ==> x == item
  {
    hide Ids, Suffix;
    var q := [item] + rest;
    forall j | 0 <= j < |r| && r[j].id == item.id ensures j == 0 && r[j] == item {
      SuffixAt(r, item, rest, j);
    }
  }

  lemma SuffixAt(r: seq<Item>, item: Item, rest: seq<Item>, j: nat)
    requires Suffix(r, [item] + rest) && j < |r| && item.id !in Ids(rest) && r[j].id == item.id
    ensures j == 0 && r[j] == item
  {
    var k := |rest| + 1 - |r| + j;
    assert r[j] == ([item] + rest)[k];
    IdAt(rest, k - 1, item.id);
  }

  lemma IdAt(rest: seq<Item>, k: int, id: string)
    requires id !in Ids(rest)
    ensures 0 <= k < |rest| ==> rest[k].id != id
  {
    if 0 <= k < |rest| { assert rest[k] in rest; }
  }

  lemma CancellationJoined(m: Moment, removed: Moment, retired: Moment, joined: Moment, n: Moment, a: Asset, item: Item)
    requires removed == m.(queued := WithoutTask(m.queued, a, item.id)) && item.cancellation
    requires Withdraws(removed, retired, a, item.id) && item.id !in Ids(QueueOf(retired.queued, a))
    requires joined == retired.(queued := retired.queued[a := [item] + QueueOf(retired.queued, a)])
    requires Moves(joined, n, {}, {}) && forall x :: x in n.inFlight ==> !n.inFlight[x].item.cancellation
    ensures Cancels(m, n, a, item)
  {
    var rest := QueueOf(retired.queued, a);
    WithoutAccounts(m.queued, a, item.id);
    MovesParts(joined, n, {}, {});
    NewsJoin(m.sends, retired.sends, n.sends);
    var first, second := News(m.sends, retired.sends), News(retired.sends, n.sends);
    AccountedAfterBut(m.queued, removed.queued, retired.queued, first, a, {item.id});
    AccountedJoined(m.queued, retired.queued, joined.queued, first, a, item);
    AccountedButTrans(m.queued, joined.queued, n.queued, first, second, a, {item.id});
    assert Suffix(QueueOf(n.queued, a), [item] + rest) by { hide Total; assert QueueOf(joined.queued, a) == [item] + rest; }
    FirstStays(QueueOf(n.queued, a), item, rest);
    ItemSent(joined.queued, n.queued, first, second, a, item);
    NotAssigned(joined, n, a, item, rest);
    StaysOn(m, joined, n, a, item.id);
    hide Moves, Drained, Accounted, AccountedBut, Total, Ids, FromQueue, Grown, News, WithoutTask, Stays, StaysBut, Suffix;
  }

  lemma AccountedJoined(p: Queues, q: Queues, r: Queues, news: seq<Send>, a: Asset, item: Item)
    requires AccountedBut(p, q, news, a, {item.id}) && r == q[a := [item] + QueueOf(q, a)]
    ensures AccountedBut(p, r, news, a, {item.id})
  {
  }

  lemma ItemSent(q: Queues, r: Queues, first: seq<Send>, second: seq<Send>, a: Asset, item: Item)
    requires Accounted(q, r, second) && item in QueueOf(q, a)
    ensures item in QueueOf(r, a) || Went(first + second, a, item)
  {
  }

  lemma NotAssigned(m: Moment, n: Moment, a: Asset, item: Item, rest: seq<Item>)
    requires FromQueue(m.queued, m.inFlight, n.inFlight) && Stays(m.inFlight, n.inFlight)
    requires QueueOf(m.queued, a) == [item] + rest && item.cancellation && item.id !in Ids(rest)
    requires FlightId(m.inFlight, a) != Some(item.id) && forall x :: x in n.inFlight ==> !n.inFlight[x].item.cancellation
    ensures FlightId(n.inFlight, a) != Some(item.id)
  {
    if a in n.inFlight && a !in m.inFlight {
      var y :| y in QueueOf(m.queued, a) && SameTask(y, n.inFlight[a].item);
      assert y != item;
      assert y in rest && y.id in Ids(rest);
    }
  }

  lemma WithdrawnQueue(m: Moment, n: Moment, a: Asset, id: string)
    requires Withdraws(m, n, a, id) && id !in Ids(QueueOf(m.queued, a))
    ensures id !in Ids(QueueOf(n.queued, a)) && Total(n.queued) <= Total(m.queued)
  {
    SuffixIds(m.queued, n.queued, a, id);
  }

  // ----- assignments ------------------------------------------------------------------------------------

  /** The last version of a Task in a batch. */
  function LastOf(tasks: seq<Item>, id: string): (t: Option<Item>)
    ensures t.Some? ==> t.value in tasks && t.value.id == id
    ensures t.None? ==> id !in Ids(tasks)
  {
    if tasks == [] then None
    else if tasks[|tasks| - 1].id == id then Some(tasks[|tasks| - 1])
    else
      var t := LastOf(tasks[..|tasks| - 1], id);
      if t.None? then (assert tasks == tasks[..|tasks| - 1] + [tasks[|tasks| - 1]]; None) else t
  }

  /** The Tasks of the batch that are not in flight. */
  function Wanted(tasks: seq<Item>, flying: Option<string>, stopping: Option<string>): (wanted: seq<Item>)
    ensures forall t :: t in wanted <==> t in tasks && flying != Some(t.id) && stopping != Some(t.id)
  {
    if tasks == [] then []
    else
      var last := tasks[|tasks| - 1];
      var rest := Wanted(tasks[..|tasks| - 1], flying, stopping);
      assert tasks == tasks[..|tasks| - 1] + [last];
      if flying == Some(last.id) || stopping == Some(last.id) then rest else rest + [last]
  }

  predicate CancellationOf(q: seq<Item>, id: string) { exists x :: x in q && x.id == id && x.cancellation }

  lemma {:induction false} LastWanted(tasks: seq<Item>, flying: Option<string>, stopping: Option<string>, id: string)
    requires flying != Some(id) && stopping != Some(id)
    ensures LastOf(Wanted(tasks, flying, stopping), id) == LastOf(tasks, id)
  {
    if tasks != [] {
      var rest := Wanted(tasks[..|tasks| - 1], flying, stopping);
      LastWanted(tasks[..|tasks| - 1], flying, stopping, id);
      assert (rest + [tasks[|tasks| - 1]])[..|rest|] == rest;
    }
  }

  lemma MergeItemHolds(q: seq<Item>, t: Item, x: Item)
    requires DistinctIds(q) && x in q && (x.id != t.id || x.cancellation)
    ensures x in MergeItem(q, t)
  {
    var i := IndexFrom(q, t.id, 0);
    var j :| 0 <= j < |q| && q[j] == x;
    if i >= 0 && !q[i].cancellation {
      assert j != i;
      assert MergeItem(q, t)[j] == x;
    }
  }

  /** A merge loses neither a cancellation nor what the batch does not name. */
  lemma {:induction false} MergeKeeps(q: seq<Item>, tasks: seq<Item>, x: Item)
    requires DistinctIds(q) && x in q && (x.cancellation || x.id !in Ids(tasks))
    ensures x in Merge(q, tasks)
  {
    if tasks != [] {
      var rest, last := tasks[..|tasks| - 1], tasks[|tasks| - 1];
      assert tasks == rest + [last];
      IdsAppend(rest, last);
      MergeKeeps(q, rest, x);
      MergeIds(q, rest);
      MergeItemHolds(Merge(q, rest), last, x);
    }
  }

  /** A merge brings no cancellation. */
  lemma {:induction false} MergeCancels(q: seq<Item>, tasks: seq<Item>, id: string)
    requires forall t :: t in tasks ==> !t.cancellation
    ensures CancellationOf(Merge(q, tasks), id) ==> CancellationOf(q, id)
  {
    if tasks != [] {
      var rest, last := tasks[..|tasks| - 1], tasks[|tasks| - 1];
      MergeCancels(q, rest, id);
      if CancellationOf(Merge(q, tasks), id) {
        var x :| x in Merge(q, tasks) && x.id == id && x.cancellation;
        assert x in Merge(q, rest);
      }
    }
  }

  /** A merge brings in the last version of every Task of the batch, unless a cancellation of it is queued. */
  lemma {:induction false} MergeBrings(q: seq<Item>, tasks: seq<Item>, id: string)
    requires DistinctIds(q) && !CancellationOf(q, id) && LastOf(tasks, id).Some?
    requires forall t :: t in tasks ==> !t.cancellation
    ensures LastOf(tasks, id).value in Merge(q, tasks)
  {
    var rest, last := tasks[..|tasks| - 1], tasks[|tasks| - 1];
    var merged := Merge(q, rest);
    MergeIds(q, rest);
    if last.id == id {
      var i := IndexFrom(merged, id, 0);
      if i >= 0 {
        MergeCancels(q, rest, id);
        assert merged[i] in merged && !merged[i].cancellation;
        assert MergeItem(merged, last)[i] == last;
      } else {
        assert MergeItem(merged, last)[|merged|] == last;
      }
    } else {
      MergeBrings(q, rest, id);
      MergeItemHolds(merged, last, LastOf(rest, id).value);
    }
  }

  /** What was queued is queued still or was sent, but for assignments that the batch replaces by newer versions. */
  ghost predicate Replaces(before: Queues, after: Queues, news: seq<Send>, at: Asset, ids: set<string>) {
    forall a, x :: x in QueueOf(before, a) && (a != at || x.cancellation || x.id !in ids) ==>
      x in QueueOf(after, a) || Went(news, a, x)
  }

  /** Of each Task of the batch, not in flight and not to be cancelled, the last version is queued or was sent. */
  ghost predicate Assigns(m: Moment, n: Moment, a: Asset, tasks: seq<Item>) {
    && (forall id :: id in Ids(tasks) && FlightId(m.inFlight, a) != Some(id) && FlightId(m.cancelling, a) != Some(id)
                     && !CancellationOf(QueueOf(m.queued, a), id) ==>
          && LastOf(tasks, id).Some?
          && (LastOf(tasks, id).value in QueueOf(n.queued, a) || Went(News(m.sends, n.sends), a, LastOf(tasks, id).value)))
    && Replaces(m.queued, n.queued, News(m.sends, n.sends), a, Ids(tasks))
    && Stays(m.inFlight, n.inFlight) && Stays(m.cancelling, n.cancelling)
  }

  lemma BatchJoined(m: Moment, r: Moment, joined: Moment, n: Moment, a: Asset, tasks: seq<Item>)
    requires QueuesOk(r.queued) && (forall t :: t in tasks ==> !t.cancellation) && Moves(m, r, {}, {})
    requires a !in m.inFlight ==> r == m
    requires forall x :: x in r.inFlight ==> !r.inFlight[x].item.cancellation
    requires forall x :: x in r.cancelling ==> r.cancelling[x].item.cancellation
    requires var wanted := Wanted(tasks, FlightId(r.inFlight, a), FlightId(r.cancelling, a));
             joined == r.(queued := r.queued[a := Sort(Merge(QueueOf(r.queued, a), wanted))])
    requires Moves(joined, n, {}, {})
    ensures Assigns(m, n, a, tasks)
  {
    hide Moves, Accounted, Replaces, Merge, Wanted, Sort, Ids, Stays, FromQueue, QueuesOk, Drained, LastOf, News, Grown;
    MovesParts(m, r, {}, {});
    MovesParts(joined, n, {}, {});
    NewsJoin(m.sends, r.sends, n.sends);
    var first, second := News(m.sends, r.sends), News(r.sends, n.sends);
    BatchReplaces(m, r, joined, n, a, tasks, first, second);
    StaysTrans(m.inFlight, r.inFlight, n.inFlight);
    StaysTrans(m.cancelling, r.cancelling, n.cancelling);
    forall id | id in Ids(tasks) && FlightId(m.inFlight, a) != Some(id) && FlightId(m.cancelling, a) != Some(id)
                && !CancellationOf(QueueOf(m.queued, a), id)
      ensures LastOf(tasks, id).Some?
      ensures LastOf(tasks, id).value in QueueOf(n.queued, a) || Went(first + second, a, LastOf(tasks, id).value)
    {
      BatchBrings(m, r, joined, a, tasks, id);
      ItemSent(joined.queued, n.queued, first, second, a, LastOf(tasks, id).value);
    }
  }

  lemma StaysTrans(f: map<Asset, Flight>, g: map<Asset, Flight>, h: map<Asset, Flight>)
    requires Stays(f, g) && Stays(g, h)
    ensures Stays(f, h)
  {
  }

  lemma BatchBrings(m: Moment, r: Moment, joined: Moment, a: Asset, tasks: seq<Item>, id: string)
    requires QueuesOk(r.queued) && (forall t :: t in tasks ==> !t.cancellation)
    requires Drained(m.queued, r.queued, {}) && Stays(m.inFlight, r.inFlight) && Stays(m.cancelling, r.cancelling)
    requires FromQueue(m.queued, m.cancelling, r.cancelling) && (a !in m.inFlight ==> r == m)
    requires forall x :: x in r.cancelling ==> r.cancelling[x].item.cancellation
    requires var wanted := Wanted(tasks, FlightId(r.inFlight, a), FlightId(r.cancelling, a));
             joined == r.(queued := r.queued[a := Sort(Merge(QueueOf(r.queued, a), wanted))])
    requires id in Ids(tasks) && FlightId(m.inFlight, a) != Some(id) && FlightId(m.cancelling, a) != Some(id)
    requires !CancellationOf(QueueOf(m.queued, a), id)
    ensures LastOf(tasks, id).Some? && LastOf(tasks, id).value in QueueOf(joined.queued, a)
  {
    hide Total, Before, Merge, Wanted, Sort, LastOf, Ids;
    var q := QueueOf(r.queued, a);
    var wanted := Wanted(tasks, FlightId(r.inFlight, a), FlightId(r.cancelling, a));
    assert Suffix(q, QueueOf(m.queued, a));
    assert !CancellationOf(q, id);
    if a in r.cancelling && a !in m.cancelling { NotOf(QueueOf(m.queued, a), r.cancelling[a].item, id); }
    LastWanted(tasks, FlightId(r.inFlight, a), FlightId(r.cancelling, a), id);
    MergeBrings(q, wanted, id);
    SortSorts(Merge(q, wanted));
  }

  lemma NotOf(q: seq<Item>, x: Item, id: string)
    requires Taken(q, x) && x.cancellation && !CancellationOf(q, id)
    ensures x.id != id
  {
    var y :| y in q && SameTask(y, x);
    assert y.id == id && y.cancellation ==> CancellationOf(q, id);
  }

  lemma BatchReplaces(m: Moment, r: Moment, joined: Moment, n: Moment, a: Asset, tasks: seq<Item>, first: seq<Send>,
                      second: seq<Send>)
    requires QueuesOk(r.queued) && Accounted(m.queued, r.queued, first) && Accounted(joined.queued, n.queued, second)
    requires exists wanted: seq<Item> ::
               (forall t :: t in wanted ==> t in tasks)
               && joined == r.(queued := r.queued[a := Sort(Merge(QueueOf(r.queued, a), wanted))])
    ensures Replaces(m.queued, n.queued, first + second, a, Ids(tasks))
  {
    hide Before, Merge, Sort;
    var wanted :| (forall t: Item :: t in wanted ==> t in tasks)
                  && joined == r.(queued := r.queued[a := Sort(Merge(QueueOf(r.queued, a), wanted))]);
    var q := QueueOf(r.queued, a);
    forall b, x | x in QueueOf(m.queued, b) && (b != a || x.cancellation || x.id !in Ids(tasks))
      ensures x in QueueOf(n.queued, b) || Went(first + second, b, x)
    {
      if x in QueueOf(r.queued, b) {
        if b == a {
          assert x.id in Ids(wanted) ==> x.id in Ids(tasks);
          MergeKeeps(q, wanted, x);
          SortSorts(Merge(q, wanted));
        }
        assert x in QueueOf(joined.queued, b);
      }
    }
  }

  lemma OneWanted(item: Item, flying: Option<string>, stopping: Option<string>)
    requires flying != Some(item.id) && stopping != Some(item.id)
    ensures Wanted([item], flying, stopping) == [item]
  {
    assert [item][..0] == [];
    assert Wanted([], flying, stopping) == [];
  }

  /** A batch whose slots were counted fits, even if sends failed in between. */
  lemma BatchRoom(m: Moment, r: Moment, a: Asset, tasks: seq<Item>, wanted: seq<Item>, additions: set<string>, limit: nat)
    requires QueuesOk(m.queued) && QueuesOk(r.queued) && Moves(m, r, {}, {}) && (a !in m.inFlight ==> r == m)
    requires Total(m.queued) <= limit && (|additions| > 0 ==> Total(m.queued) + |additions| <= limit)
    requires forall x :: x in additions <==> x in Ids(tasks) && FlightId(m.inFlight, a) != Some(x)
                                             && FlightId(m.cancelling, a) != Some(x) && x !in Ids(QueueOf(m.queued, a))
    requires wanted == Wanted(tasks, FlightId(r.inFlight, a), FlightId(r.cancelling, a))
    ensures Total(r.queued[a := Sort(Merge(QueueOf(r.queued, a), wanted))]) <= limit
  {
    hide Moves, Total, Wanted, Merge, Ids, QueuesOk, Drained, FromQueue;
    MovesParts(m, r, {}, {});
    BatchFits(m.queued, r.queued, a, tasks, wanted, additions, FlightId(m.inFlight, a), FlightId(m.cancelling, a), limit);
  }

  /** What was sent again before the queue was joined was sent again. */
  lemma SentStays(m: Moment, r: Moment, n: Moment, a: Asset)
    requires Grown(m.sends, r.sends) && Grown(r.sends, n.sends)
    ensures forall id :: SentAgain(News(m.sends, r.sends), a, id) ==> SentAgain(News(m.sends, n.sends), a, id)
  {
    NewsJoin(m.sends, r.sends, n.sends);
  }

  // ----- the dispatcher -------------------------------------------------------------------------------

  class OrderedTaskDispatcher {
    const queueLimit: nat
    const outcomes: nat -> Outcome
    var queued: Queues
    var inFlight: map<Asset, Flight>
    var cancelling: map<Asset, Flight>
    var pumping: set<Asset>
    var retrying: set<Asset>
    var retiring: set<Asset>
    var pumpingQueued: bool
    var wakingRetries: bool
    var sequence: nat
    ghost var sends: seq<Send>

    ghost predicate Valid()
      reads this
    {
      QueuesOk(queued) && Total(queued) <= queueLimit && SendsOk(sends)
      && (forall a :: a in cancelling ==> cancelling[a].item.cancellation)
      && (forall a :: a in inFlight ==>
            !inFlight[a].item.cancellation
            && (inFlight[a].retry.Some? ==>
                  inFlight[a].failed && inFlight[a].retry.value.id == inFlight[a].item.id && !inFlight[a].retry.value.cancellation))
    }

    /** No call is under way. */
    ghost predicate Settled()
      reads this
    {
      pumping == {} && retrying == {} && retiring == {} && !pumpingQueued && !wakingRetries
    }

    ghost function Now(): Moment
      reads `queued, `inFlight, `cancelling, `sends
    {
      Moment(queued, inFlight, cancelling, sends)
    }

    constructor (queueLimit: nat, outcomes: nat -> Outcome)
      requires queueLimit > 0
      ensures Valid() && Settled() && queued == map[] && inFlight == map[] && cancelling == map[] && sends == []
    {
      this.queueLimit, this.outcomes := queueLimit, outcomes;
      queued, inFlight, cancelling := map[], map[], map[];
      pumping, retrying, retiring, pumpingQueued, wakingRetries := {}, {}, {}, false, false;
      sequence := 0;
      sends := [];
    }

    /** How often the waking methods may still be entered: each guards itself against being entered twice. */
    ghost function Entries(): nat
      reads `pumpingQueued, `wakingRetries
    {
      (if pumpingQueued then 0 else 1) + (if wakingRetries then 0 else 1)
    }

    /** The guards against being entered twice are as they were. */
    twostate predicate SameGuards()
      reads this
    {
      && pumping == old(pumping) && retrying == old(retrying) && retiring == old(retiring)
      && pumpingQueued == old(pumpingQueued) && wakingRetries == old(wakingRetries)
    }

    /** What a call made while sends are under way may change: nothing gets lost or is taken out of flight. */
    twostate predicate Nested()
      reads this
    {
      SameGuards() && Moves(old(Now()), Now(), pumping, retrying)
    }

    /** `send`: a refusal is reported before the call returns. */
    method SendNow(a: Asset, item: Item) returns (result: Outcome, ghost entry: Send)
      requires Valid()
      requires !item.cancellation ==> a !in cancelling && (a in inFlight ==> inFlight[a].item.id == item.id)
      modifies this
      ensures Valid() && SameGuards()
      ensures entry.asset == a && entry.item == item && entry.outcome == result
      ensures result.Accepted? ==> Now() == old(Now()).(sends := old(sends) + [entry])
      ensures !result.Accepted? ==>
                Moves(old(Now()), Now(), pumping, retrying) && |sends| > |old(sends)| && sends[|old(sends)|] == entry
      decreases Entries(), 6
    {
      hide QueuesOk, Total, SendsOk, Moves;
      result := outcomes(sequence);
      entry := Send(a, item, if a in inFlight then Some(inFlight[a].item.id) else None, a in cancelling, result);
      sequence := sequence + 1;
      SendsMore(sends, entry);
      ghost var m := Now();
      sends := sends + [entry];
      if !result.Accepted? {
        ghost var logged := Now();
        MovesLogged(m, entry, pumping, retrying);
        HandleFailure(result.op);
        MovesTrans(m, logged, Now(), pumping, retrying, pumping, retrying);
        LoggedFirst(m.sends, entry, logged, Now(), pumping, retrying);
      }
    }

    /** `handleTransportEvent` marks the delivery whose operation failed; it stays in flight. */
    method MarkFailed(op: string) returns (hit: Option<Asset>)
      requires Valid()
      modifies `inFlight, `cancelling
      ensures Valid() && Moves(old(Now()), Now(), pumping, retrying) && FailureMarked(old(Now()), Now(), op, hit)
    {
      hide QueuesOk, SendsOk, Total, Moves;
      ghost var m := Now();
      hit := FindFlight(cancelling, op);
      if hit.Some? {
        cancelling := cancelling[hit.value := cancelling[hit.value].(failed := true)];
      } else {
        hit := FindFlight(inFlight, op);
        if hit.Some? {
          inFlight := inFlight[hit.value := inFlight[hit.value].(failed := true)];
        }
      }
      MovesMarked(m, Now(), pumping, retrying);
    }

    /** `handleTransportEvent` for an operation that failed: the delivery stays, marked until it is sent again. */
    method HandleFailure(op: string)
      requires Valid()
      modifies this
      ensures Valid() && Nested() && FailureNoted(old(Now()), Now(), op)
      decreases Entries(), 5
    {
      hide QueuesOk, SendsOk, Total, Moves, FailureMarked, FailureNoted;
      ghost var m := Now();
      var skipped := MarkFailed(op);
      ghost var marked := Now();
      WakeRetryableAssignments();
      ghost var woken := Now();
      PumpQueuedAssets(None, skipped);
      MovesTrans(marked, woken, Now(), pumping, retrying, pumping, retrying);
      NotedAfter(m, marked, Now(), op, skipped, pumping, retrying);
      MovesTrans(m, marked, Now(), pumping, retrying, pumping, retrying);
    }

    /** `wakeRetryableAssignments` */
    method WakeRetryableAssignments()
      requires Valid()
      modifies this
      ensures Valid() && Nested()
      decreases Entries(), 4
    {
      hide QueuesOk, SendsOk, Total, Moves;
      MovesSelf(Now(), pumping, retrying);
      if wakingRetries { return; }
      wakingRetries := true;
      var todo := inFlight.Keys;
      while todo != {}
        invariant Valid() && wakingRetries && pumping == old(pumping) && retrying == old(retrying) && retiring == old(retiring)
        invariant pumpingQueued == old(pumpingQueued) && Moves(old(Now()), Now(), pumping, retrying)
        decreases |todo|
      {
        var a :| a in todo;
        todo := todo - {a};
        ghost var before := Now();
        RetryQueuedAssignment(a);
        MovesTrans(old(Now()), before, Now(), pumping, retrying, pumping, retrying);
      }
      wakingRetries := false;
    }

    /** `retryQueuedAssignment` */
    method RetryQueuedAssignment(a: Asset)
      requires Valid()
      modifies this
      ensures Valid() && Nested()
      decreases Entries(), 9
    {
      hide QueuesOk, SendsOk, Total, Moves;
      MovesSelf(Now(), pumping, retrying);
      if a !in inFlight || !inFlight[a].failed || inFlight[a].retry.None? { return; }
      RetryFailedAssignment(a, inFlight[a].retry.value);
    }

    /**
      `retryFailedAssignment`: a failed assignment is sent again unless a cancellation is in flight.  Afterwards it is
      under way anew, or marked as failed with this version of the Task noted for the next try.
      */
    method RetryFailedAssignment(a: Asset, item: Item)
      requires Valid() && !item.cancellation
      modifies this
      ensures Valid() && Nested()
      ensures if a in old(inFlight) && old(inFlight)[a].item.id == item.id && old(inFlight)[a].failed && a !in retrying then
                Retried(old(Now()), Now(), a, item)
              else Now() == old(Now()) || a in old(cancelling)
      decreases Entries(), 8
    {
      hide QueuesOk, SendsOk, Total, Moves;
      ghost var m := Now();
      MovesSelf(m, pumping, retrying);
      if a !in inFlight || inFlight[a].item.id != item.id || !inFlight[a].failed { return; }
      if a in cancelling {
        inFlight := inFlight[a := inFlight[a].(retry := Some(item))];
        MovesMarked(m, Now(), pumping, retrying);
        return;
      }
      if a in retrying { return; }
      SendAgain(a, item);
    }

    /** The failed assignment goes out again. */
    method SendAgain(a: Asset, item: Item)
      requires Valid() && !item.cancellation && a in inFlight && inFlight[a].item.id == item.id && inFlight[a].failed
      requires a !in cancelling && a !in retrying
      modifies this
      ensures Valid() && Nested() && Retried(old(Now()), Now(), a, item)
      decreases Entries(), 7
    {
      hide QueuesOk, SendsOk, Total, Moves, Retried, SameTask;
      ghost var m, outer := Now(), retrying;
      inFlight := inFlight[a := inFlight[a].(retry := None)];
      ghost var cleared := Now();
      MovesMarked(m, cleared, pumping, outer);
      retrying := retrying + {a};
      var result;
      ghost var entry;
      result, entry := SendNow(a, item);
      ghost var sent := Now();
      retrying := retrying - {a};
      assert retrying == outer;
      if result.Accepted? {
        NoteRetry(a, item, result);
        SameAgain(item, m.inFlight[a].item);
        SetTwice(m.inFlight, a, m.inFlight[a].(retry := None), inFlight[a]);
        AgainAccepted(m, Now(), a, item, entry, pumping, outer);
      } else {
        StillFailing(cleared, sent, a, pumping, outer + {a});
        SameId(sent.inFlight[a].item, cleared.inFlight[a].item);
        NoteRetry(a, item, result);
        AgainRefused(m, cleared, sent, Now(), a, item, entry, pumping, outer);
      }
    }

    /** What a retry leaves of the delivery: its new operation, or the Task to try again later. */
    method NoteRetry(a: Asset, item: Item, result: Outcome)
      requires Valid() && a in inFlight && inFlight[a].item.id == item.id && !item.cancellation
      requires !result.Accepted? ==> inFlight[a].failed
      modifies `inFlight
      ensures Valid()
      ensures inFlight == old(inFlight)[a := if result.Accepted? then Flight(item, result.op, false, None)
                                             else old(inFlight)[a].(retry := Some(item))]
    {
      hide QueuesOk, SendsOk, Total;
      inFlight := inFlight[a := if result.Accepted? then Flight(item, result.op, false, None) else inFlight[a].(retry := Some(item))];
    }

    /** `pumpQueuedAssets` */
    method PumpQueuedAssets(preferred: Option<Asset>, skipped: Option<Asset>)
      requires Valid()
      modifies this
      ensures Valid() && Nested()
      decreases Entries(), 4
    {
      hide QueuesOk, SendsOk, Total, Moves;
      ghost var m := Now();
      MovesSelf(m, pumping, retrying);
      if pumpingQueued { return; }
      pumpingQueued := true;
      if preferred.Some? && preferred != skipped { Pump(preferred.value); }
      ghost var before := Now();
      PumpOthers(preferred, skipped);
      MovesTrans(m, before, Now(), pumping, retrying, pumping, retrying);
      pumpingQueued := false;
    }

    /** Every Asset that had a queue, but for the one pumped first and the one skipped. */
    method PumpOthers(preferred: Option<Asset>, skipped: Option<Asset>)
      requires Valid() && pumpingQueued
      modifies this
      ensures Valid() && Nested()
      decreases Entries(), 12
    {
      hide QueuesOk, SendsOk, Total, Moves;
      MovesSelf(Now(), pumping, retrying);
      var todo := queued.Keys;
      while todo != {}
        invariant Valid() && pumpingQueued && pumping == old(pumping) && retrying == old(retrying) && retiring == old(retiring)
        invariant wakingRetries == old(wakingRetries) && Moves(old(Now()), Now(), pumping, retrying)
        decreases |todo|
      {
        var a :| a in todo;
        todo := todo - {a};
        if Some(a) != preferred && Some(a) != skipped {
          ghost var before := Now();
          Pump(a);
          MovesTrans(old(Now()), before, Now(), pumping, retrying, pumping, retrying);
        }
      }
    }

    method ShiftQueue(a: Asset)
      requires Valid()
      modifies `queued
      ensures Valid() && queued == Shifted(old(queued), a)
    {
      hide SendsOk, Total;
      ShiftedDrains(queued, a, {});
      queued := if |QueueOf(queued, a)| <= 1 then queued - {a} else queued[a := queued[a][1..]];
    }

    /** The head of the queue is sent; what the transport refuses for good is dropped. */
    method SendHead(a: Asset, next: Item)
      requires Valid() && a !in pumping && QueueOf(queued, a) != [] && next == QueueOf(queued, a)[0] && MayGo(Now(), a)
      modifies this
      ensures Valid() && Nested() && HeadSent(old(Now()), Now(), a)
      decreases Entries(), 8
    {
      hide QueuesOk, SendsOk, Total, Moves, Shifted, HeadSent, Accepting;
      ghost var m, held := Now(), pumping;
      pumping := pumping + {a};
      var result;
      ghost var entry;
      result, entry := SendNow(a, next);
      ghost var sent := Now();
      pumping := pumping - {a};
      assert pumping == held;
      if result.Accepted? {
        ShiftQueue(a);
        NoteSent(a, next, result.op);
        MovesAccepted(m, a, entry, held, retrying);
        AcceptedHead(m, Now(), a, entry);
      } else {
        HeldQueue(m, sent, a, held + {a}, retrying);
        if result.Refused? {
          ShiftQueue(a);
          FirstNews(m, sent, entry, held + {a}, retrying);
          MovesDropped(m, sent, a, entry, held, retrying);
          ShiftedAt(sent.queued, a);
        } else {
          MovesHeld(m, sent, held + {a}, held, retrying);
        }
        RefusedHead(m, Now(), a, entry);
      }
    }

    /** An accepted delivery is in flight until it is settled. */
    method NoteSent(a: Asset, next: Item, op: string)
      requires Valid()
      modifies `inFlight, `cancelling
      ensures Valid()
      ensures inFlight == if next.cancellation then old(inFlight) else old(inFlight)[a := Flight(next, op, false, None)]
      ensures cancelling == if next.cancellation then old(cancelling)[a := Flight(next, op, false, None)] else old(cancelling)
    {
      hide QueuesOk, SendsOk, Total;
      var flight := Flight(next, op, false, None);
      if next.cancellation {
        cancelling := cancelling[a := flight];
      } else {
        inFlight := inFlight[a := flight];
      }
    }

    /**
      `pump`: the head of one Asset's queue is sent exactly if nothing in flight forbids it; taken it is in flight,
      refused for good it is dropped, and refused for capacity it stays.
      */
    method Pump(a: Asset)
      requires Valid()
      modifies this
      ensures Valid() && Nested()
      ensures if a !in pumping && QueueOf(old(queued), a) != [] && MayGo(old(Now()), a) then HeadSent(old(Now()), Now(), a)
              else Now() == old(Now()).(queued := queued) && forall b :: QueueOf(queued, b) == QueueOf(old(queued), b)
      decreases Entries(), 9
    {
      hide SendsOk, QueuesOk, Total, Moves, HeadSent;
      MovesSelf(Now(), pumping, retrying);
      if a in pumping { return; }
      var queue := QueueOf(queued, a);
      if queue == [] {
        MovesEmpty(Now(), a, pumping, retrying);
        ShiftQueue(a);
        return;
      }
      var next := queue[0];
      if next.cancellation {
        if a in cancelling { return; }
      } else if a in inFlight || a in cancelling {
        return;
      }
      SendHead(a, next);
    }

    // ----- settling -----------------------------------------------------------------------------------

    /**
      `handleTransportEvent` for an operation that reached its Asset or was rejected there: exactly that delivery
      leaves its place, which is free afterwards or taken by a Task that was queued.
      */
    method HandleSettled(op: string)
      requires Valid() && Settled()
      modifies this
      ensures Valid() && Settled() && Drained(old(queued), queued, {})
      ensures Accounted(old(queued), queued, News(old(sends), sends)) && Leaves(old(Now()), Now(), op)
    {
      hide QueuesOk, SendsOk, Total, Moves, Leaves;
      ghost var m := Now();
      var hit := FindFlight(cancelling, op);
      var c := hit;
      if hit.Some? {
        cancelling := cancelling - {hit.value};
      } else {
        hit := FindFlight(inFlight, op);
        if hit.Some? { inFlight := inFlight - {hit.value}; }
      }
      ghost var left := Now();
      WakeAfter(hit, c.Some?);
      LeavesAfter(m, left, Now(), op, c, hit);
      MovesParts(left, Now(), {}, {});
    }

    /** What may go on once a place is free. */
    method WakeAfter(hit: Option<Asset>, cancellation: bool)
      requires Valid() && Settled()
      modifies this
      ensures Valid() && Settled() && Moves(old(Now()), Now(), {}, {})
    {
      hide QueuesOk, SendsOk, Total, Moves;
      ghost var m := Now();
      MovesSelf(m, {}, {});
      if hit.Some? {
        if cancellation { RetryQueuedAssignment(hit.value); }
        ghost var retried := Now();
        PumpQueuedAssets(hit, None);
        MovesTrans(m, retried, Now(), {}, {}, {}, {});
        ghost var pumped := Now();
        WakeRetryableAssignments();
        MovesTrans(m, pumped, Now(), {}, {}, {}, {});
      } else {
        WakeRetryableAssignments();
        ghost var woken := Now();
        PumpQueuedAssets(None, None);
        MovesTrans(m, woken, Now(), {}, {}, {}, {});
      }
    }

    /** An operation failed, was refused for capacity elsewhere, or capacity became available. */
    method HandleFailed(op: string)
      requires Valid() && Settled()
      modifies this
      ensures Valid() && Settled() && Moves(old(Now()), Now(), {}, {}) && FailureNoted(old(Now()), Now(), op)
    {
      hide QueuesOk, SendsOk, Total, Moves, FailureNoted;
      HandleFailure(op);
    }

    /** `retireInFlight`: cancelling an operation still under way reports its failure before the call returns. */
    method RetireInFlight(a: Asset, underWay: bool) returns (ghost called: Moment)
      requires Valid() && a in inFlight
      modifies this
      ensures Valid() && SameGuards() && Moves(old(Now()), called, pumping, retrying)
      ensures Now() == called.(inFlight := called.inFlight - {a})
    {
      hide QueuesOk, SendsOk, Total, Moves;
      MovesSelf(Now(), pumping, retrying);
      var outer := retiring;
      retiring := retiring + {a};
      if underWay && !inFlight[a].failed { HandleFailure(inFlight[a].op); }
      called := Now();
      inFlight := inFlight - {a};
      retiring := outer;
    }

    /** `retireInFlightCancellation` */
    method RetireCancellation(a: Asset, underWay: bool) returns (ghost called: Moment)
      requires Valid() && a in cancelling
      modifies this
      ensures Valid() && SameGuards() && Moves(old(Now()), called, pumping, retrying)
      ensures Now() == called.(cancelling := called.cancelling - {a})
    {
      hide QueuesOk, SendsOk, Total, Moves;
      MovesSelf(Now(), pumping, retrying);
      var outer := retiring;
      retiring := retiring + {a};
      if underWay && !cancelling[a].failed { HandleFailure(cancelling[a].op); }
      called := Now();
      cancelling := cancelling - {a};
      retiring := outer;
    }

    // ----- calls from the Gateway ---------------------------------------------------------------------

    method RemoveQueuedTask(a: Asset, id: string)
      requires Valid()
      modifies `queued
      ensures Valid() && queued == WithoutTask(old(queued), a, id) && Total(queued) <= Total(old(queued))
    {
      hide QueuesOk, SendsOk, Total, WithoutTask;
      RemovedOk(queued, a, id);
      queued := RemovedFrom(queued, a, id);
    }

    static method RemovedFrom(m: Queues, a: Asset, id: string) returns (n: Queues)
      ensures n == WithoutTask(m, a, id)
    {
      if a !in m {
        assert m == WithoutTask(m, a, id);
        return m;
      }
      var remaining := [];
      for i := 0 to |m[a]|
        invariant remaining == Others(m[a][..i], id)
      {
        assert m[a][..i + 1][..i] == m[a][..i];
        if m[a][i].id != id { remaining := remaining + [m[a][i]]; }
      }
      assert m[a][..|m[a]|] == m[a];
      n := if remaining == [] then m - {a} else m[a := remaining];
    }

    /** Whatever of a Task that is not queued is in flight for the Asset is called off, and nothing else. */
    method RetireTask(a: Asset, id: string, underWay: bool)
      requires Valid() && Settled() && id !in Ids(QueueOf(queued, a))
      modifies this
      ensures Valid() && Settled() && Withdraws(old(Now()), Now(), a, id)
    {
      hide QueuesOk, SendsOk, Total, Moves, Withdraws, Ids;
      ghost var m := Now();
      MovesSelf(m, {}, {});
      ghost var called := m;
      if a in inFlight && inFlight[a].item.id == id { called := RetireInFlight(a, underWay); }
      ghost var first := Now();
      MovesSelf(first, {}, {});
      ghost var again := first;
      if a in cancelling && cancelling[a].item.id == id { again := RetireCancellation(a, underWay); }
      Withdrawn(m, called, first, again, Now(), a, id);
    }

    /**
      `enqueue` of a cancellation: it is refused, changing nothing, exactly when there is no room; otherwise it stands
      first in the queue or was sent, nothing else of its Task is queued or assigned, and every other delivery is
      queued still or was sent.
      */
    method EnqueueCancellation(a: Asset, item: Item, underWay: bool) returns (ok: bool)
      requires Valid() && Settled() && item.cancellation
      modifies this
      ensures Valid() && Settled()
      ensures ok <==> item.id in Ids(QueueOf(old(queued), a)) || Total(old(queued)) < queueLimit
      ensures !ok ==> Now() == old(Now())
      ensures ok ==> Cancels(old(Now()), Now(), a, item)
    {
      hide QueuesOk, SendsOk, Total, Moves, WithoutTask, Ids, Withdraws, Cancels, HeadSent;
      ghost var m := Now();
      var replacesQueued := IsQueued(a, item.id);
      var total := CountQueued();
      if !replacesQueued && total + 1 > queueLimit { return false; }
      RemovedOk(queued, a, item.id);
      RemoveQueuedTask(a, item.id);
      ghost var removed := Now();
      RetireTask(a, item.id, underWay);
      ghost var retired := Now();
      WithdrawnQueue(removed, retired, a, item.id);
      PrependOk(queued, a, item);
      queued := queued[a := [item] + QueueOf(queued, a)];
      ghost var joined := Now();
      Pump(a);
      CancellationJoined(m, removed, retired, joined, Now(), a, item);
      ok := true;
    }

    /** An assignment of a Task that is in flight or being called off asks for no place in the queue. */
    predicate Ignored(a: Asset, id: string)
      reads `inFlight, `cancelling, `queued
    {
      || (FlightId(inFlight, a) == Some(id) && !inFlight[a].failed)
      || FlightId(cancelling, a) == Some(id)
      || CancellationOf(QueueOf(queued, a), id)
    }

    /** `ignoresAssignment` */
    method IgnoresAssignment(a: Asset, id: string) returns (ignored: bool)
      requires Valid()
      ensures ignored == Ignored(a, id)
    {
      hide QueuesOk, SendsOk, Total;
      if a in inFlight && inFlight[a].item.id == id && !inFlight[a].failed { return true; }
      if a in cancelling && cancelling[a].item.id == id { return true; }
      var q := QueueOf(queued, a);
      for i := 0 to |q|
        invariant forall j :: 0 <= j < i ==> !(q[j].id == id && q[j].cancellation)
      {
        if q[i].id == id && q[i].cancellation { return true; }
      }
      return false;
    }

    /**
      `enqueue` of an assignment.  One that is to be ignored changes nothing; one that failed in flight is sent again;
      any other is refused, changing nothing, exactly when it is new and there is no room, and is queued or sent
      otherwise, as every other delivery is that was queued before.
      */
    method EnqueueAssignment(a: Asset, item: Item) returns (ok: bool)
      requires Valid() && Settled() && !item.cancellation
      modifies this
      ensures Valid() && Settled()
      ensures !ok <==> !old(Ignored(a, item.id)) && FlightId(old(inFlight), a) != Some(item.id)
                       && item.id !in Ids(QueueOf(old(queued), a)) && Total(old(queued)) >= queueLimit
      ensures !ok || old(Ignored(a, item.id)) ==> Now() == old(Now())
      ensures !old(Ignored(a, item.id)) && FlightId(old(inFlight), a) == Some(item.id) ==>
                Retried(old(Now()), Now(), a, item) && Moves(old(Now()), Now(), {}, {})
      ensures ok && !old(Ignored(a, item.id)) && FlightId(old(inFlight), a) != Some(item.id) ==>
                Assigns(old(Now()), Now(), a, [item])
    {
      hide QueuesOk, SendsOk, Total, Moves, Ids, Merge, Assigns, CancellationOf, Retried;
      ghost var m := Now();
      var ignored := IgnoresAssignment(a, item.id);
      if ignored { return true; }
      if a in inFlight && inFlight[a].item.id == item.id {
        RetryFailedAssignment(a, item);
        return true;
      }
      var queue := QueueOf(queued, a);
      var existing := IndexOf(queue, item.id);
      if existing < 0 {
        var total := CountQueued();
        if total + 1 > queueLimit { return false; }
      }
      MergeOne(queue, item);
      TotalPut(queued, a, Sort(Merge(queue, [item])));
      OneWanted(item, FlightId(inFlight, a), FlightId(cancelling, a));
      MovesSelf(m, {}, {});
      ghost var joined := JoinQueue(a, [item]);
      BatchJoined(m, m, joined, Now(), a, [item]);
      ok := true;
    }

    /** Assignments join the queue of their Asset, and its head may go. */
    method JoinQueue(a: Asset, wanted: seq<Item>) returns (ghost joined: Moment)
      requires Valid() && Settled() && Total(queued[a := Sort(Merge(QueueOf(queued, a), wanted))]) <= queueLimit
      modifies this
      ensures Valid() && Settled() && Moves(joined, Now(), {}, {})
      ensures joined == old(Now()).(queued := old(queued)[a := Sort(Merge(QueueOf(old(queued), a), wanted))])
    {
      hide QueuesOk, SendsOk, Total, Moves, HeadSent;
      MergeOk(queued, a, wanted);
      var queue := MergeInto(QueueOf(queued, a), wanted);
      queued := queued[a := Sort(queue)];
      joined := Now();
      Pump(a);
    }

    /** The slots a batch asks for. */
    function Additions(a: Asset, tasks: seq<Item>): set<string>
      reads `inFlight, `cancelling, `queued
    {
      set x | x in Ids(tasks) && FlightId(inFlight, a) != Some(x) && FlightId(cancelling, a) != Some(x)
              && x !in Ids(QueueOf(queued, a))
    }

    /**
      `enqueueAssignments`: a batch is admitted whole or, changing nothing, not at all; and a failed delivery of one of
      its Tasks is sent again.
      */
    method EnqueueAssignments(a: Asset, tasks: seq<Item>) returns (ok: bool)
      requires Valid() && Settled() && forall t :: t in tasks ==> !t.cancellation
      modifies this
      ensures Valid() && Settled()
      ensures ok <==> old(Additions(a, tasks)) == {} || Total(old(queued)) + |old(Additions(a, tasks))| <= queueLimit
      ensures !ok ==> Now() == old(Now())
      ensures ok ==> Assigns(old(Now()), Now(), a, tasks)
      ensures ok && a in old(inFlight) && old(inFlight)[a].failed && old(inFlight)[a].item.id in Ids(tasks)
              && a !in old(cancelling) ==>
                SentAgain(News(old(sends), sends), a, old(inFlight)[a].item.id)
    {
      hide QueuesOk, SendsOk, Total, Moves, Drained, Ids, Merge, Assigns, Wanted, SentAgain, News, Grown;
      ghost var m := Now();
      var additions := NewIds(a, tasks);
      assert additions == Additions(a, tasks);
      var total := CountQueued();
      if |additions| > 0 && total + |additions| > queueLimit { return false; }
      Replay(a, tasks);
      // The queue is read again here: a send that failed meanwhile may have taken its head away.
      ghost var retried := Now();
      var wanted := NotInFlight(a, tasks);
      BatchRoom(m, retried, a, tasks, wanted, additions, queueLimit);
      ghost var joined := JoinQueue(a, wanted);
      BatchJoined(m, retried, joined, Now(), a, tasks);
      MovesParts(m, retried, {}, {});
      MovesParts(joined, Now(), {}, {});
      SentStays(m, retried, Now(), a);
      ok := true;
    }

    /** A failed delivery of one of the Tasks is sent again. */
    method Replay(a: Asset, tasks: seq<Item>)
      requires Valid() && Settled() && forall t :: t in tasks ==> !t.cancellation
      modifies this
      ensures Valid() && Settled() && Moves(old(Now()), Now(), {}, {}) && (a !in old(inFlight) ==> Now() == old(Now()))
      ensures a in old(inFlight) && old(inFlight)[a].failed && old(inFlight)[a].item.id in Ids(tasks) && a !in old(cancelling) ==>
                SentAgain(News(old(sends), sends), a, old(inFlight)[a].item.id)
    {
      hide QueuesOk, SendsOk, Total, Moves, Ids;
      MovesSelf(Now(), {}, {});
      if a in inFlight && inFlight[a].failed {
        var replay := IndexOf(tasks, inFlight[a].item.id);
        if replay >= 0 { RetryFailedAssignment(a, tasks[replay]); }
      }
    }

    /**
      `observeAuthoritativeTask` for a Task that ended: it leaves the queue and is called off, and every other delivery
      is queued still or was sent, and in flight still if it was.
      */
    method ObserveTerminalTask(a: Asset, id: string, underWay: bool)
      requires Valid() && Settled()
      modifies this
      ensures Valid() && Settled() && Ends(old(Now()), Now(), a, id)
    {
      hide QueuesOk, SendsOk, Total, Moves, WithoutTask, Withdraws, Ends, HeadSent, Ids;
      ghost var m := Now();
      RemovedOk(queued, a, id);
      RemoveQueuedTask(a, id);
      ghost var removed := Now();
      RetireTask(a, id, underWay);
      ghost var retired := Now();
      Pump(a);
      EndedAfter(m, removed, retired, Now(), a, id);
    }

    /** Task ids of the batch that are neither in flight nor queued. */
    method NewIds(a: Asset, tasks: seq<Item>) returns (ids: set<string>)
      requires Valid()
      ensures forall x :: x in ids <==>
                (x in Ids(tasks) && FlightId(inFlight, a) != Some(x) && FlightId(cancelling, a) != Some(x)
                 && x !in Ids(QueueOf(queued, a)))
    {
      hide QueuesOk, SendsOk, Total;
      ids := {};
      for i := 0 to |tasks|
        invariant forall x :: x in ids <==>
                    (x in Ids(tasks[..i]) && FlightId(inFlight, a) != Some(x) && FlightId(cancelling, a) != Some(x)
                     && x !in Ids(QueueOf(queued, a)))
      {
        IdsAppend(tasks[..i], tasks[i]);
        assert tasks[..i + 1] == tasks[..i] + [tasks[i]];
        var known := IsQueued(a, tasks[i].id);
        if !known && FlightId(inFlight, a) != Some(tasks[i].id) && FlightId(cancelling, a) != Some(tasks[i].id) {
          ids := ids + {tasks[i].id};
        }
      }
      assert tasks[..|tasks|] == tasks;
    }

    method NotInFlight(a: Asset, tasks: seq<Item>) returns (wanted: seq<Item>)
      ensures wanted == Wanted(tasks, FlightId(inFlight, a), FlightId(cancelling, a))
    {
      wanted := [];
      for i := 0 to |tasks|
        invariant wanted == Wanted(tasks[..i], FlightId(inFlight, a), FlightId(cancelling, a))
      {
        assert tasks[..i + 1][..i] == tasks[..i];
        if FlightId(inFlight, a) != Some(tasks[i].id) && FlightId(cancelling, a) != Some(tasks[i].id) { wanted := wanted + [tasks[i]]; }
      }
      assert tasks[..|tasks|] == tasks;
    }

    method IsQueued(a: Asset, id: string) returns (found: bool)
      ensures found <==> id in Ids(QueueOf(queued, a))
    {
      var at := IndexOf(QueueOf(queued, a), id);
      found := at >= 0;
    }

    /** The number of queued deliveries over all Assets. */
    method CountQueued() returns (total: nat)
      ensures total == Total(queued)
    {
      total := 0;
      var rest := queued;
      while rest != map[]
        invariant total + Total(rest) == Total(queued)
        decreases |rest|
      {
        var a :| a in rest;
        TotalDrop(rest, a);
        total := total + |rest[a]|;
        rest := rest - {a};
      }
    }

    // ----- what always holds --------------------------------------------------------------------------

    /** No Task is queued twice for an Asset, cancellations come first, and the total stays within the limit. */
    lemma QueuesOrdered(a: Asset, i: nat, j: nat)
      requires Valid() && i < j < |QueueOf(queued, a)|
      ensures var q := QueueOf(queued, a);
              && q[i].id != q[j].id && (q[j].cancellation ==> q[i].cancellation)
              && (!q[i].cancellation && q[i].created.Valid() && q[j].created.Valid() ==>
                    var p := Max(|q[i].created.digits|, |q[j].created.digits|);
                    && Instant(q[i].created, p) <= Instant(q[j].created, p)
                    && (Instant(q[i].created, p) == Instant(q[j].created, p) ==> !Precedes(q[j].id, q[i].id)))
      ensures |QueueOf(queued, a)| <= Total(queued) <= queueLimit
    {
      TotalDrop(queued, a);
      var q := QueueOf(queued, a);
      if q[i].created.Valid() && q[j].created.Valid() { BeforeExactly(q[j], q[i]); }
    }

    /** An assignment was only ever sent with no cancellation and no other Task's assignment in flight. */
    lemma AssignmentsAlone(s: Send)
      requires Valid() && s in sends && !s.item.cancellation
      ensures !s.cancelling && (s.engaged.None? || s.engaged.value == s.item.id)
    {
    }

    static method FindFlight(flights: map<Asset, Flight>, op: string) returns (found: Option<Asset>)
      ensures found.Some? ==> found.value in flights && flights[found.value].op == op
      ensures found.None? ==> forall a :: a in flights ==> flights[a].op != op
    {
      found := None;
      var todo := flights.Keys;
      while todo != {} && found.None?
        invariant todo <= flights.Keys
        invariant found.Some? ==> found.value in flights && flights[found.value].op == op
        invariant found.None? ==> forall a :: a in flights && a !in todo ==> flights[a].op != op
        decreases |todo|
      {
        var a :| a in todo;
        todo := todo - {a};
        if flights[a].op == op { found := Some(a); }
      }
    }
  }

  // ----- removing, replacing and adding queued Tasks ---------------------------------------------------

  function FlightId(flights: map<Asset, Flight>, a: Asset): Option<string> {
    if a in flights then Some(flights[a].item.id) else None
  }

  function Others(q: seq<Item>, id: string): seq<Item> {
    if q == [] then []
    else
      var rest := Others(q[..|q| - 1], id);
      if q[|q| - 1].id == id then rest else rest + [q[|q| - 1]]
  }

  function WithoutTask(m: Queues, a: Asset, id: string): Queues {
    var remaining := Others(QueueOf(m, a), id);
    if a !in m then m else if remaining == [] then m - {a} else m[a := remaining]
  }

  lemma {:induction false} OthersAre(q: seq<Item>, id: string)
    ensures |Others(q, id)| <= |q| && forall x :: x in Others(q, id) <==> x in q && x.id != id
    ensures id in Ids(q) ==> |Others(q, id)| < |q|
  {
    if q != [] {
      var rest := q[..|q| - 1];
      OthersAre(rest, id);
      assert q == rest + [q[|q| - 1]];
      if id in Ids(q) && q[|q| - 1].id != id {
        assert id in Ids(rest);
      }
    }
  }

  lemma {:induction false} OthersOrdered(q: seq<Item>, id: string)
    requires DistinctIds(q) && Sorted(q)
    ensures DistinctIds(Others(q, id)) && Sorted(Others(q, id))
  {
    hide Before;
    if q != [] {
      var rest := q[..|q| - 1];
      var last := q[|q| - 1];
      OthersOrdered(rest, id);
      OthersAre(rest, id);
      var kept := Others(rest, id);
      forall i | 0 <= i < |kept| ensures kept[i].id != last.id && !Before(last, kept[i]) {
        assert kept[i] in rest;
      }
    }
  }

  lemma OthersOk(q: seq<Item>, id: string)
    ensures |Others(q, id)| <= |q| && forall x :: x in Others(q, id) <==> x in q && x.id != id
    ensures DistinctIds(q) && Sorted(q) ==> DistinctIds(Others(q, id)) && Sorted(Others(q, id))
    ensures id in Ids(q) ==> |Others(q, id)| < |q|
  {
    hide DistinctIds, Sorted;
    OthersAre(q, id);
    if DistinctIds(q) && Sorted(q) {
      OthersOrdered(q, id);
    }
  }

  lemma RemovedOk(m: Queues, a: Asset, id: string)
    requires QueuesOk(m)
    ensures var n := WithoutTask(m, a, id);
            && QueuesOk(n) && id !in Ids(QueueOf(n, a)) && Total(n) <= Total(m)
            && (id in Ids(QueueOf(m, a)) ==> Total(n) < Total(m))
  {
    var q := QueueOf(m, a);
    OthersOk(q, id);
    TotalPut(m, a, Others(q, id));
    TotalRemove(m, a);
    hide Total, Before;
  }

  lemma PrependOk(m: Queues, a: Asset, item: Item)
    requires QueuesOk(m) && item.cancellation && item.id !in Ids(QueueOf(m, a))
    ensures QueuesOk(m[a := [item] + QueueOf(m, a)]) && Total(m[a := [item] + QueueOf(m, a)]) == Total(m) + 1
  {
    var q := QueueOf(m, a);
    TotalPut(m, a, [item] + q);
    hide Total;
    forall j | 0 <= j < |q| ensures q[j].id != item.id && !Before(q[j], item) {
      assert q[j].id in Ids(q);
    }
  }

  lemma IdsAppend(q: seq<Item>, x: Item)
    ensures Ids(q + [x]) == Ids(q) + {x.id}
  {
    assert forall y :: y in q + [x] <==> y in q || y == x;
  }

  function IndexFrom(q: seq<Item>, id: string, from: nat): (i: int)
    requires from <= |q|
    ensures i == -1 || from <= i < |q|
    ensures i >= 0 ==> q[i].id == id && forall k :: from <= k < i ==> q[k].id != id
    ensures i == -1 ==> forall k :: from <= k < |q| ==> q[k].id != id
    decreases |q| - from
  {
    if from == |q| then -1 else if q[from].id == id then from else IndexFrom(q, id, from + 1)
  }

  /** `findIndex`: the first queued delivery of the Task, or -1. */
  method IndexOf(q: seq<Item>, id: string) returns (i: int)
    ensures i == IndexFrom(q, id, 0)
    ensures i >= 0 <==> id in Ids(q)
  {
    i := 0;
    while i < |q| && q[i].id != id
      invariant 0 <= i <= |q| && IndexFrom(q, id, 0) == IndexFrom(q, id, i)
    {
      i := i + 1;
    }
    if i == |q| { i := -1; }
  }

  /** One assignment joins a queue: it replaces an earlier version but never a cancellation. */
  function MergeItem(q: seq<Item>, t: Item): seq<Item> {
    var i := IndexFrom(q, t.id, 0);
    if i < 0 then q + [t] else if q[i].cancellation then q else q[i := t]
  }

  function Merge(q: seq<Item>, tasks: seq<Item>): seq<Item> {
    if tasks == [] then q else MergeItem(Merge(q, tasks[..|tasks| - 1]), tasks[|tasks| - 1])
  }

  lemma MergeItemOk(q: seq<Item>, t: Item)
    requires DistinctIds(q)
    ensures DistinctIds(MergeItem(q, t)) && Ids(MergeItem(q, t)) == Ids(q) + {t.id}
  {
    var i := IndexFrom(q, t.id, 0);
    if i < 0 {
      IdsAppend(q, t);
    } else {
      assert q[i].id in Ids(q);
      var r := MergeItem(q, t);
      forall x | x in Ids(q) ensures x in Ids(r) {
        var k :| 0 <= k < |q| && q[k].id == x;
        assert r[k].id == x && r[k] in r;
      }
      forall x | x in Ids(r) ensures x in Ids(q) {
        var k :| 0 <= k < |r| && r[k].id == x;
        assert q[k].id == x && q[k] in q;
      }
    }
  }

  lemma {:induction false} MergeIds(q: seq<Item>, tasks: seq<Item>)
    requires DistinctIds(q)
    ensures DistinctIds(Merge(q, tasks)) && Ids(Merge(q, tasks)) == Ids(q) + Ids(tasks)
    decreases |tasks|
  {
    if tasks == [] {
      assert Ids(tasks) == {};
    } else {
      var rest := tasks[..|tasks| - 1];
      MergeIds(q, rest);
      MergeItemOk(Merge(q, rest), tasks[|tasks| - 1]);
      IdsAppend(rest, tasks[|tasks| - 1]);
      assert tasks == rest + [tasks[|tasks| - 1]];
    }
  }

  lemma MergeOk(m: Queues, a: Asset, tasks: seq<Item>)
    requires QueuesOk(m)
    ensures QueuesOk(m[a := Sort(Merge(QueueOf(m, a), tasks))])
  {
    var q := QueueOf(m, a);
    hide Before, Merge;
    MergeIds(q, tasks);
    SortDistinct(Merge(q, tasks));
    SortSorts(Merge(q, tasks));
  }

  lemma MergeOne(q: seq<Item>, t: Item)
    ensures |Merge(q, [t])| == |q| + (if t.id in Ids(q) then 0 else 1)
  {
    assert [t][..0] == [];
    assert Merge(q, [t]) == MergeItem(q, t);
    var i := IndexFrom(q, t.id, 0);
    if i >= 0 {
      assert q[i] in q;
    }
  }

  /** The loop over a batch. */
  method MergeInto(q: seq<Item>, tasks: seq<Item>) returns (merged: seq<Item>)
    ensures merged == Merge(q, tasks)
  {
    merged := q;
    for i := 0 to |tasks|
      invariant merged == Merge(q, tasks[..i])
    {
      assert tasks[..i + 1][..i] == tasks[..i];
      var at := IndexOf(merged, tasks[i].id);
      if at < 0 {
        merged := merged + [tasks[i]];
      } else if !merged[at].cancellation {
        merged := merged[at := tasks[i]];
      }
    }
    assert tasks[..|tasks|] == tasks;
  }

  /** What a batch adds never exceeds the slots counted for it, even if sends failed in between. */
  lemma BatchFits(before: Queues, now: Queues, a: Asset, tasks: seq<Item>, wanted: seq<Item>, additions: set<string>,
                  flying: Option<string>, stopping: Option<string>, limit: nat)
    requires QueuesOk(before) && QueuesOk(now) && Drained(before, now, {})
    requires Total(before) <= limit && (|additions| > 0 ==> Total(before) + |additions| <= limit)
    requires forall x :: x in additions <==> x in Ids(tasks) && flying != Some(x) && stopping != Some(x) && x !in Ids(QueueOf(before, a))
    requires forall t :: t in wanted ==> t in tasks && flying != Some(t.id) && stopping != Some(t.id)
    ensures Total(now[a := Sort(Merge(QueueOf(now, a), wanted))]) <= limit
  {
    hide Total, Before, Merge;
    var q, r := QueueOf(before, a), QueueOf(now, a);
    var merged := Merge(r, wanted);
    MergeIds(r, wanted);
    IdsCount(merged);
    IdsCount(q);
    assert Suffix(r, q);
    forall x | x in Ids(merged) ensures x in Ids(q) + additions {
      if x in Ids(r) {
        var y :| y in r && y.id == x;
        assert y in q;
      } else {
        var y :| y in wanted && y.id == x;
        assert y in tasks && y.id in Ids(tasks);
      }
    }
    SubsetCard(Ids(merged), Ids(q) + additions);
    UnionCard(Ids(q), additions);
    OthersTotal(before, now, a);
    TotalPut(now, a, Sort(merged));
  }

  /** The other Assets' queues did not grow either. */
  lemma OthersTotal(before: Queues, now: Queues, a: Asset)
    requires forall x :: Suffix(QueueOf(now, x), QueueOf(before, x))
    ensures Total(now) - |QueueOf(now, a)| <= Total(before) - |QueueOf(before, a)|
  {
    TotalRemove(before, a);
    TotalRemove(now, a);
    hide Total;
    forall x ensures |QueueOf(now - {a}, x)| <= |QueueOf(before - {a}, x)| {
      assert Suffix(QueueOf(now, x), QueueOf(before, x));
    }
    TotalShrinks(before - {a}, now - {a});
  }

  lemma {:induction false} TotalShrinks(before: Queues, now: Queues)
    requires forall x :: |QueueOf(now, x)| <= |QueueOf(before, x)|
    ensures Total(now) <= Total(before)
    decreases |now|
  {
    if now != map[] {
      var a :| a in now;
      TotalDrop(now, a);
      TotalRemove(before, a);
      hide Total;
      forall x ensures |QueueOf(now - {a}, x)| <= |QueueOf(before - {a}, x)| {
        assert |QueueOf(now, x)| <= |QueueOf(before, x)|;
      }
      TotalShrinks(before - {a}, now - {a});
    }
  }
}
