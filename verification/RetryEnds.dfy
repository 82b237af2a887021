/** When the retry limit ends a message, whatever else is in the flow: the limit counts how often
    the message has been taken from the retry queues, and a busy flow takes nothing from them. */
module RetryEnds {
  import opened Sequences
  import opened Worklist
  import opened FlowState
  import opened FlowConservation

  /** What the retry counter stands at when a message reaches the work after it has been taken from
      the download queue `d` times: each return counts twice, once for being taken and once for
      failing; with refiltering the counter starts again at each return. */
  function Weight(o: Options, d: nat): nat {
    if !o.refilter then 2 * d else if d == 0 then 0 else 1
  }

  predicate Reached(o: Options, n: nat) {
    0 < o.retryCountMax <= n
  }

  /** On one of the lists of a pass, in a retry queue, or given up. */
  datatype Spot = OnList | InRetry | Over

  /** What is known of the message `x` at a spot, if `m` is that message. */
  ghost predicate Mark(m: Message, x: nat, o: Options, n: nat, spot: Spot) {
    m.id == x ==>
      match spot
      case OnList => m.retries == n && (o.retryCountMax > 0 ==> n <= o.retryCountMax)
      case InRetry => m.retries == n + 1 && !Reached(o, n)
      case Over => Reached(o, n)
  }

  ghost predicate Marks(ms: seq<Message>, x: nat, o: Options, n: nat, spot: Spot) {
    forall i | 0 <= i < |ms| :: Mark(ms[i], x, o, n, spot)
  }

  ghost predicate QueueMarks(q: Pending, x: nat, o: Options, n: nat) {
    Marks(q.ready, x, o, n, InRetry) && Marks(q.waiting, x, o, n, InRetry)
  }

  ghost predicate Marked(s: State, x: nat, o: Options, n: nat) {
    && Marks(s.incoming, x, o, n, OnList) && Marks(s.ok, x, o, n, OnList) && Marks(s.failed, x, o, n, OnList)
    && QueueMarks(s.download, x, o, n) && QueueMarks(s.post, x, o, n)
    && Marks(s.gaveUp, x, o, n, Over)
  }

  /** How often `x` is where it can still come to a transfer. */
  ghost function Early(s: State, x: nat): nat {
    Count(s.incoming, x) + Count(s.failed, x) + InQueue(s.download, x)
  }

  /** `x` entered the flow at most once; it has been taken `d` times from the download queue and `q`
      times from the post queue, never from the former after the latter and never once the limit was
      reached; and it has been given up only if the limit is reached. */
  ghost predicate Trail(s: State, x: nat, o: Options, d: nat, q: nat) {
    var n := Weight(o, d) + q;
    && Marked(s, x, o, n) && (q > 0 ==> Early(s, x) == 0)
    && Load(s, x) <= 1 && (Load(s, x) == 0 ==> !Reached(o, n))
    && (d > 0 ==> !Reached(o, Weight(o, d - 1))) && (q > 0 ==> !Reached(o, n - 1))
  }

  // Lists.

  lemma {:induction false} Absent(ms: seq<Message>, x: nat, o: Options, n: nat, spot: Spot)
    requires Count(ms, x) == 0
    ensures Marks(ms, x, o, n, spot)
  {
    if ms != [] {
      Absent(ms[..|ms| - 1], x, o, n, spot);
    }
  }

  lemma {:induction false} Present(ms: seq<Message>, x: nat) returns (i: nat)
    requires Count(ms, x) > 0
    ensures i < |ms| && ms[i].id == x
  {
    var n := |ms| - 1;
    if ms[n].id == x {
      i := n;
    } else {
      i := Present(ms[..n], x);
    }
  }

  lemma MarksConcat(a: seq<Message>, b: seq<Message>, x: nat, o: Options, n: nat, spot: Spot)
    requires Marks(a, x, o, n, spot) && Marks(b, x, o, n, spot)
    ensures Marks(a + b, x, o, n, spot)
  {
    hide Mark;
  }

  /** A failure is counted: the message is queued or given up. */
  lemma {:induction false} CountedMarks(ms: seq<Message>, x: nat, o: Options, n: nat)
    requires Marks(ms, x, o, n, OnList)
    ensures Marks(Kept(BumpAll(ms, false), o), x, o, n, InRetry)
    ensures Marks(GivenUp(BumpAll(ms, false), o), x, o, n, Over)
  {
    if ms != [] {
      var k := |ms| - 1;
      CountedMarks(ms[..k], x, o, n);
      assert BumpAll(ms, false)[..k] == BumpAll(ms[..k], false);
      assert Mark(ms[k], x, o, n, OnList);
      hide BumpAll;
    }
  }

  /** Taking from the download queue is counted, with refiltering from 0 again. */
  lemma {:induction false} TakenMarks(ms: seq<Message>, x: nat, o: Options, d: nat)
    requires Marks(ms, x, o, Weight(o, d), InRetry)
    ensures Marks(Kept(BumpAll(ms, o.refilter), o), x, o, Weight(o, d + 1), OnList)
    ensures Marks(GivenUp(BumpAll(ms, o.refilter), o), x, o, Weight(o, d + 1), Over)
  {
    if ms != [] {
      var k := |ms| - 1;
      TakenMarks(ms[..k], x, o, d);
      assert BumpAll(ms, o.refilter)[..k] == BumpAll(ms[..k], o.refilter);
      assert Mark(ms[k], x, o, Weight(o, d), InRetry);
      hide BumpAll;
    }
  }

  lemma FirstMarks(q: Pending, k: nat, x: nat, o: Options, n: nat)
    requires QueueMarks(q, x, o, n)
    ensures Marks(First(q, k), x, o, n, InRetry) && QueueMarks(Rest(q, k), x, o, n)
  {
    hide Mark;
  }

  ghost predicate EntryMarks(es: seq<Entry>, x: nat, o: Options, n: nat) {
    forall i | 0 <= i < |es| :: Mark(es[i].m, x, o, n, OnList)
  }

  lemma {:induction false} OnMarks(es: seq<Entry>, p: Place, x: nat, o: Options, n: nat)
    requires EntryMarks(es, x, o, n)
    ensures Marks(On(es, p), x, o, n, OnList)
  {
    hide Mark;
    if es != [] {
      OnMarks(es[..|es| - 1], p, x, o, n);
    }
  }

  lemma PutMarked(s: State, es: seq<Entry>, x: nat, o: Options, n: nat)
    requires Marked(s, x, o, n) && EntryMarks(es, x, o, n)
    ensures Marked(PutAll(s, es), x, o, n)
  {
    OnMarks(es, Incoming, x, o, n);
    OnMarks(es, Ok, x, o, n);
    OnMarks(es, Failed, x, o, n);
    MarksConcat(s.incoming, On(es, Incoming), x, o, n, OnList);
    MarksConcat(s.ok, On(es, Ok), x, o, n, OnList);
    MarksConcat(s.failed, On(es, Failed), x, o, n, OnList);
    hide Marks, On, EntryMarks;
  }

  lemma {:induction false} FilterMarks(ms: seq<Message>, o: Options, w: World, x: nat, n: nat)
    requires Marks(ms, x, o, n, OnList)
    ensures EntryMarks(FilterAll(ms, o, w), x, o, n)
  {
    hide FilterOne;
    if ms != [] {
      FilterMarks(ms[..|ms| - 1], o, w, x, n);
      FilterKeeps(ms[|ms| - 1], o, w, |ms| - 1);
    }
  }

  lemma {:induction false} WorkMarks(ms: seq<Message>, o: Options, w: World, x: nat, n: nat)
    requires CanWork(o) && Marks(ms, x, o, n, OnList)
    ensures EntryMarks(WorkAll(ms, o, w), x, o, n)
  {
    if ms != [] {
      var k := |ms| - 1;
      WorkMarks(ms[..k], o, w, x, n);
      assert Mark(ms[k], x, o, n, OnList);
      forall l ensures Mark(Landed(ms[k], l).m, x, o, n, OnList) {}
      hide Landings, Sending, Mark, Landed;
    }
  }

  lemma {:induction false} PublishMarks(ms: seq<Message>, o: Options, w: World, x: nat, n: nat)
    requires Marks(ms, x, o, n, OnList)
    ensures EntryMarks(PublishAll(ms, w), x, o, n)
  {
    if ms != [] {
      PublishMarks(ms[..|ms| - 1], o, w, x, n);
    }
  }

  // Taking from the queues.

  ghost function Pulled(s: State, k: nat, o: Options): State {
    var pulled := BumpAll(First(s.download, k), o.refilter);
    s.(incoming := s.incoming + Kept(pulled, o), download := Rest(s.download, k),
       gaveUp := s.gaveUp + GivenUp(pulled, o))
  }

  lemma PulledLoad(s: State, k: nat, o: Options, x: nat)
    ensures Load(Pulled(s, k, o), x) == Load(s, x)
    ensures Early(Pulled(s, k, o), x) <= Early(s, x)
    ensures Count(First(s.download, k), x) <= InQueue(s.download, x)
  {
    var pulled := First(s.download, k);
    FirstCount(s.download, k, x);
    CappedCount(pulled, o.refilter, o, x);
    CountConcat(s.incoming, Kept(BumpAll(pulled, o.refilter), o), x);
    CountConcat(s.gaveUp, GivenUp(BumpAll(pulled, o.refilter), o), x);
    hide Count, Kept, GivenUp, First, Rest;
  }

  /** What a pass takes from the download queue when `x` is not among it. */
  lemma PulledOthers(s: State, k: nat, o: Options, x: nat, n: nat)
    requires Marked(s, x, o, n) && Count(First(s.download, k), x) == 0
    ensures Marked(Pulled(s, k, o), x, o, n)
  {
    var pulled := First(s.download, k);
    var b := BumpAll(pulled, o.refilter);
    FirstMarks(s.download, k, x, o, n);
    CappedCount(pulled, o.refilter, o, x);
    Absent(Kept(b, o), x, o, n, OnList);
    Absent(GivenUp(b, o), x, o, n, Over);
    MarksConcat(s.incoming, Kept(b, o), x, o, n, OnList);
    MarksConcat(s.gaveUp, GivenUp(b, o), x, o, n, Over);
    hide Marks, Count, Kept, GivenUp, First, Rest, BumpAll;
  }

  lemma PulledIt(s: State, k: nat, o: Options, x: nat, d: nat)
    requires Marked(s, x, o, Weight(o, d)) && Load(s, x) == 1 && Count(First(s.download, k), x) > 0
    ensures Marked(Pulled(s, k, o), x, o, Weight(o, d + 1)) && !Reached(o, Weight(o, d))
  {
    var n := Weight(o, d + 1);
    var pulled := First(s.download, k);
    var b := BumpAll(pulled, o.refilter);
    FirstCount(s.download, k, x);
    FirstMarks(s.download, k, x, o, Weight(o, d));
    TakenMarks(pulled, x, o, d);
    var i := Present(pulled, x);
    assert Mark(pulled[i], x, o, Weight(o, d), InRetry);
    AllAbsent(s.(download := Rest(s.download, k)), x, o, n);
    MarksConcat(s.incoming, Kept(b, o), x, o, n, OnList);
    MarksConcat(s.gaveUp, GivenUp(b, o), x, o, n, Over);
    hide Marks, Count, Kept, GivenUp, First, Rest, BumpAll;
  }

  /** Where `x` is nowhere, anything holds of it. */
  lemma AllAbsent(s: State, x: nat, o: Options, n: nat)
    requires Count(s.incoming, x) + Count(s.ok, x) + Count(s.failed, x) + Queued(s, x) + Count(s.gaveUp, x) == 0
    ensures Marked(s, x, o, n)
  {
    Absent(s.incoming, x, o, n, OnList);
    Absent(s.ok, x, o, n, OnList);
    Absent(s.failed, x, o, n, OnList);
    Absent(s.download.ready, x, o, n, InRetry);
    Absent(s.download.waiting, x, o, n, InRetry);
    Absent(s.post.ready, x, o, n, InRetry);
    Absent(s.post.waiting, x, o, n, InRetry);
    Absent(s.gaveUp, x, o, n, Over);
    hide Count, Marks;
  }

  lemma PulledTrail(s: State, k: nat, o: Options, x: nat, d: nat, q: nat)
    requires Trail(s, x, o, d, q)
    ensures Trail(Pulled(s, k, o), x, o, d + Count(First(s.download, k), x), q)
  {
    hide Marked, Pulled, Count, First, Weight, Reached;
    PulledLoad(s, k, o, x);
    if Count(First(s.download, k), x) == 0 {
      PulledOthers(s, k, o, x, Weight(o, d) + q);
    } else {
      InQueueLoad(s, x);
      hide InQueue, Load, Early;
      PulledIt(s, k, o, x, d);
    }
  }

  lemma InQueueLoad(s: State, x: nat)
    ensures InQueue(s.download, x) <= Early(s, x) && InQueue(s.download, x) <= Load(s, x)
  {
    hide InQueue, Count;
  }

  // The stages of a pass.

  /** What a pass takes from the download queue: before the filter with refiltering, as many as it
      asks for; otherwise after it, as many as there is room for. */
  ghost function TakenDown(s: State, arrived: seq<Message>, qty: int, o: Options, ws: Worlds): seq<Message> {
    First(s.download, DownRoom(s, arrived, qty, o, ws))
  }

  ghost function DownRoom(s: State, arrived: seq<Message>, qty: int, o: Options, ws: Worlds): nat {
    if o.refilter then (if qty > 0 then qty else 0)
    else Room(o.batch, |Filtered(Gathered(s, arrived, qty, o), o, ws.filter).incoming|)
  }

  /** What a pass takes from the post queue: as many as there is room for on the ok list. */
  ghost function TakenPost(s: State, arrived: seq<Message>, qty: int, o: Options, ws: Worlds): seq<Message>
    requires CanWork(o)
  {
    First(s.post, UpRoom(s, arrived, qty, o, ws))
  }

  ghost function UpRoom(s: State, arrived: seq<Message>, qty: int, o: Options, ws: Worlds): nat
    requires CanWork(o)
  {
    var f := AfterFilter(Gathered(s, arrived, qty, o), o, ws.filter);
    var room := PostRoom(o.batch, |Worked(f, o, ws.work).ok|);
    if room > 0 then room else 0
  }

  /** Of the arrivals `x` is new. */
  ghost predicate NewOnly(arrived: seq<Message>, x: nat) {
    forall i | 0 <= i < |arrived| :: arrived[i].id == x ==> arrived[i].retries == 0
  }

  lemma NothingTaken(q: Pending, x: nat)
    ensures First(q, 0) == [] && Count(First(q, 0), x) == 0
  {
    assert q.ready[..0] == [];
  }

  /** The state with the arrivals on the incoming list. */
  ghost function Received(s: State, arrived: seq<Message>): State {
    s.(acks := s.acks.(unacked := s.acks.unacked + IdSet(arrived)), incoming := s.incoming + arrived)
  }

  lemma ReceivedMarked(s: State, arrived: seq<Message>, o: Options, x: nat, n: nat)
    requires Marked(s, x, o, n) && NewOnly(arrived, x) && (Count(arrived, x) > 0 ==> n == 0)
    ensures Marked(Received(s, arrived), x, o, n)
  {
    if Count(arrived, x) == 0 {
      Absent(arrived, x, o, n, OnList);
    }
    assert Marks(arrived, x, o, n, OnList);
    hide Marks, Count, IdSet, QueueMarks;
    MarksConcat(s.incoming, arrived, x, o, n, OnList);
  }

  lemma ReceivedTrail(s: State, arrived: seq<Message>, o: Options, x: nat, d: nat, q: nat)
    requires Trail(s, x, o, d, q) && NewOnly(arrived, x)
    requires Count(arrived, x) == 0 || (Count(arrived, x) == 1 && Load(s, x) == d == q == 0)
    ensures Trail(Received(s, arrived), x, o, d, q) && Load(Received(s, arrived), x) == Load(s, x) + Count(arrived, x)
  {
    hide Marked, Count, IdSet, InQueue, NewOnly;
    CountConcat(s.incoming, arrived, x);
    ReceivedMarked(s, arrived, o, x, Weight(o, d) + q);
    hide Weight, Reached;
  }

  lemma GatheredTrail(s: State, arrived: seq<Message>, qty: int, o: Options, x: nat, d: nat, q: nat)
    requires Trail(s, x, o, d, q) && NewOnly(arrived, x)
    requires Count(arrived, x) == 0 || (Count(arrived, x) == 1 && Load(s, x) == d == q == 0)
    ensures var k := if o.refilter && qty > 0 then qty else 0;
            && Trail(Gathered(s, arrived, qty, o), x, o, d + Count(First(s.download, k), x), q)
            && Gathered(s, arrived, qty, o).download == Rest(s.download, k)
  {
    hide Trail, Kept, GivenUp, BumpAll, Count, Load, Weight;
    ReceivedTrail(s, arrived, o, x, d, q);
    NothingTaken(s.download, x);
    if o.refilter && qty > 0 {
      PulledTrail(Received(s, arrived), qty, o, x, d, q);
      assert Gathered(s, arrived, qty, o) == Pulled(Received(s, arrived), qty, o);
    }
  }

  lemma FilteredTrail(s: State, o: Options, w: World, x: nat, d: nat, q: nat)
    requires Trail(s, x, o, d, q)
    ensures Trail(Filtered(s, o, w), x, o, d, q) && Filtered(s, o, w).download == s.download
  {
    hide Marked, FilterAll, Load, Weight, Reached;
    var es := FilterAll(s.incoming, o, w);
    FilteredLoad(s, o, w, x);
    FilteredEarly(s, o, w, x);
    EmptiedMarked(s, x, o, Weight(o, d) + q);
    FilterMarks(s.incoming, o, w, x, Weight(o, d) + q) by { MarkedLists(s, x, o, Weight(o, d) + q); }
    PutMarked(s.(incoming := []), es, x, o, Weight(o, d) + q);
    hide PutAll, Early;
  }

  lemma MarkedLists(s: State, x: nat, o: Options, n: nat)
    requires Marked(s, x, o, n)
    ensures Marks(s.incoming, x, o, n, OnList) && Marks(s.ok, x, o, n, OnList) && Marks(s.failed, x, o, n, OnList)
    ensures QueueMarks(s.download, x, o, n) && QueueMarks(s.post, x, o, n)
  {
    hide Marks;
  }

  lemma EmptiedMarked(s: State, x: nat, o: Options, n: nat)
    requires Marked(s, x, o, n)
    ensures Marked(s.(incoming := []), x, o, n) && Marked(s.(ok := []), x, o, n) && Marked(s.(failed := []), x, o, n)
    ensures Marked(s.(incoming := [], ok := []), x, o, n)
  {
    assert Marks([], x, o, n, OnList);
    hide Marks;
  }

  lemma FilteredEarly(s: State, o: Options, w: World, x: nat)
    ensures Early(Filtered(s, o, w), x) <= Early(s, x)
  {
    var es := FilterAll(s.incoming, o, w);
    FilterEntered(s.incoming, o, w, x);
    Places(es, x);
    CountConcat([], On(es, Incoming), x);
    CountConcat(s.failed, On(es, Failed), x);
    assert Count([], x) == 0;
    hide FilterAll, On, Count, Entered, InQueue;
  }

  lemma AcceptedTrail(s: State, o: Options, x: nat, d: nat, q: nat)
    requires Trail(s, x, o, d, q)
    ensures var k := if o.refilter then 0 else Room(o.batch, |s.incoming|);
            Trail(Accepted(s, o), x, o, d + Count(First(s.download, k), x), q)
  {
    hide Trail, Kept, GivenUp, BumpAll, Load, Weight;
    NothingTaken(s.download, x);
    var k := Room(o.batch, |s.incoming|);
    if o.refilter || k == 0 {
    } else if Size(s.download) < 1 {
      assert First(s.download, k) == [];
    } else {
      PulledTrail(s, k, o, x, d, q);
      assert Accepted(s, o) == Pulled(s, k, o);
    }
  }

  lemma SettledTrail(s: State, o: Options, x: nat, d: nat, q: nat)
    requires Trail(s, x, o, d, q)
    ensures Trail(FlowState.Settled(s), x, o, d, q)
  {
    hide AckAll, Marked, Load, Weight, Reached, Count, InQueue;
    SettledLoad(s, x);
    EmptiedMarked(s, x, o, Weight(o, d) + q);
    AcksApart(s.(ok := []), FlowState.Settled(s).acks, x, o, Weight(o, d) + q);
    Ungone(s.(ok := [], acks := FlowState.Settled(s).acks), FlowState.Settled(s), x, o, Weight(o, d) + q);
  }

  lemma FilterTrail(s: State, arrived: seq<Message>, qty: int, o: Options, ws: Worlds, x: nat, d: nat, q: nat)
    requires Trail(s, x, o, d, q) && NewOnly(arrived, x)
    requires Count(arrived, x) == 0 || (Count(arrived, x) == 1 && Load(s, x) == d == q == 0)
    ensures Trail(AfterFilter(Gathered(s, arrived, qty, o), o, ws.filter), x, o,
                  d + Count(TakenDown(s, arrived, qty, o, ws), x), q)
  {
    hide Trail, Gathered, Filtered, Accepted, FlowState.Settled, Count, First, Rest, Load;
    var g := Gathered(s, arrived, qty, o);
    var f := Filtered(g, o, ws.filter);
    var k := if o.refilter && qty > 0 then qty else 0;
    var d' := d + Count(First(s.download, k), x);
    GatheredTrail(s, arrived, qty, o, x, d, q);
    FilteredTrail(g, o, ws.filter, x, d', q);
    AcceptedTrail(f, o, x, d', q);
    var h := if o.refilter then 0 else Room(o.batch, |f.incoming|);
    var d'' := d' + Count(First(f.download, h), x);
    SettledTrail(Accepted(f, o), o, x, d'', q);
    NothingTaken(s.download, x);
    NothingTaken(f.download, x);
    assert o.refilter || f.download == s.download by { RestNone(s.download); }
  }

  lemma RestNone(q: Pending)
    ensures Rest(q, 0) == q
  {
    assert q.ready[0..] == q.ready;
  }

  lemma WorkedTrail(s: State, o: Options, w: World, x: nat, d: nat, q: nat)
    requires CanWork(o) && Trail(s, x, o, d, q) && s.ok == [] && Count(Doubled(s.incoming, o, w), x) == 0
    ensures Trail(Worked(s, o, w), x, o, d, q) && Worked(s, o, w).incoming == []
    ensures Worked(s, o, w).post == s.post
  {
    hide Marked, WorkAll, Load, Weight, Reached, AckAll;
    var n := Weight(o, d) + q;
    var es := WorkAll(s.incoming, o, w);
    WorkedLoad(s, o, w, x);
    WorkedEarly(s, o, w, x);
    EmptiedMarked(s, x, o, n);
    WorkMarks(s.incoming, o, w, x, n) by { MarkedLists(s, x, o, n); }
    PutMarked(s.(incoming := []), es, x, o, n);
    WorkPlaces(s.incoming, o, w);
    var t := PutAll(s.(incoming := []), es);
    assert Marked(Worked(s, o, w), x, o, n) by { AcksApart(t, Worked(s, o, w).acks, x, o, n); }
    hide PutAll, Early;
  }

  /** What left the flow and what was rejected is not looked at. */
  lemma Ungone(s: State, t: State, x: nat, o: Options, n: nat)
    requires Marked(s, x, o, n)
    requires t == s.(done := t.done, refused := t.refused, dropped := t.dropped, rejected := t.rejected)
    ensures Marked(t, x, o, n)
  {
    hide Marks;
  }

  lemma AcksApart(s: State, a: Acks, x: nat, o: Options, n: nat)
    requires Marked(s, x, o, n)
    ensures Marked(s.(acks := a), x, o, n)
  {
    hide Marks;
  }

  lemma WorkedEarly(s: State, o: Options, w: World, x: nat)
    requires CanWork(o) && Count(Doubled(s.incoming, o, w), x) == 0
    ensures Early(Worked(s, o, w), x) <= Early(s, x)
  {
    var es := WorkAll(s.incoming, o, w);
    WorkEntered(s.incoming, o, w, x);
    Places(es, x);
    CountConcat([], On(es, Incoming), x);
    CountConcat(s.failed, On(es, Failed), x);
    assert Count([], x) == 0;
    hide WorkAll, On, Count, Entered, InQueue, AckAll;
  }

  lemma RetriedWorkTrail(s: State, o: Options, x: nat, d: nat, q: nat)
    requires Trail(s, x, o, d, q)
    ensures Trail(RetriedWork(s, o), x, o, d, q)
  {
    hide Marks, Load, Weight, Reached, Kept, GivenUp, BumpAll, Count;
    var b := BumpAll(s.failed, false);
    var n := Weight(o, d) + q;
    RetriedWorkLoad(s, o, x);
    RetriedWorkEarly(s, o, x);
    CountedMarks(s.failed, x, o, n);
    MarksConcat(s.download.waiting, Kept(b, o), x, o, n, InRetry);
    MarksConcat(s.gaveUp, GivenUp(b, o), x, o, n, Over);
    assert Marked(s.(failed := []), x, o, n) by { EmptiedMarked(s, x, o, n); }
    hide Early;
  }

  lemma RetriedWorkEarly(s: State, o: Options, x: nat)
    ensures Early(RetriedWork(s, o), x) <= Early(s, x)
  {
    var b := BumpAll(s.failed, false);
    CappedCount(s.failed, false, o, x);
    CountConcat(s.download.waiting, Kept(b, o), x);
    assert Count([], x) == 0;
    hide Count, Kept, GivenUp, BumpAll;
  }

  ghost function Topped(s: State, k: nat): State {
    s.(ok := s.ok + First(s.post, k), post := Rest(s.post, k))
  }

  lemma ToppedLoad(s: State, k: nat, x: nat)
    ensures Load(Topped(s, k), x) == Load(s, x) && Early(Topped(s, k), x) == Early(s, x)
    ensures Count(First(s.post, k), x) <= InQueue(s.post, x)
    ensures InQueue(s.post, x) + Early(s, x) <= Load(s, x)
  {
    FirstCount(s.post, k, x);
    CountConcat(s.ok, First(s.post, k), x);
    hide Count, First, Rest;
  }

  lemma ToppedOthers(s: State, k: nat, o: Options, x: nat, n: nat)
    requires Marked(s, x, o, n) && Count(First(s.post, k), x) == 0
    ensures Marked(Topped(s, k), x, o, n)
  {
    hide Marks, Count, First, Rest;
    FirstMarks(s.post, k, x, o, n);
    Absent(First(s.post, k), x, o, n, OnList);
    MarksConcat(s.ok, First(s.post, k), x, o, n, OnList);
  }

  lemma {:induction false} RetakenMarks(ms: seq<Message>, x: nat, o: Options, n: nat)
    requires Marks(ms, x, o, n, InRetry)
    ensures Marks(ms, x, o, n + 1, OnList)
  {
    forall i | 0 <= i < |ms| ensures Mark(ms[i], x, o, n + 1, OnList) {
      assert Mark(ms[i], x, o, n, InRetry);
    }
  }

  lemma ToppedIt(s: State, k: nat, o: Options, x: nat, n: nat)
    requires Marked(s, x, o, n) && Load(s, x) == 1 && Count(First(s.post, k), x) > 0
    ensures Marked(Topped(s, k), x, o, n + 1) && !Reached(o, n)
  {
    FirstCount(s.post, k, x);
    FirstMarks(s.post, k, x, o, n);
    RetakenMarks(First(s.post, k), x, o, n);
    var i := Present(First(s.post, k), x);
    assert Mark(First(s.post, k)[i], x, o, n, InRetry);
    AllAbsent(s.(post := Rest(s.post, k)), x, o, n + 1);
    MarksConcat(s.ok, First(s.post, k), x, o, n + 1, OnList);
    hide Marks, Count, First, Rest;
  }

  lemma ToppedTrail(s: State, k: nat, o: Options, x: nat, d: nat, q: nat)
    requires Trail(s, x, o, d, q)
    ensures Trail(Topped(s, k), x, o, d, q + Count(First(s.post, k), x))
  {
    hide Marked, Topped, Count, First, Weight, Load, Early, InQueue;
    ToppedLoad(s, k, x);
    if Count(First(s.post, k), x) == 0 {
      ToppedOthers(s, k, o, x, Weight(o, d) + q);
    } else {
      ToppedIt(s, k, o, x, Weight(o, d) + q);
    }
  }

  lemma RefilledTrail(s: State, o: Options, x: nat, d: nat, q: nat)
    requires Trail(s, x, o, d, q)
    ensures var room := PostRoom(o.batch, |s.ok|);
            Trail(Refilled(s, o), x, o, d, q + Count(First(s.post, if room > 0 then room else 0), x))
  {
    hide Trail;
    NothingTaken(s.post, x);
    var room := PostRoom(o.batch, |s.ok|);
    if room > 0 {
      if Size(s.post) < 1 {
        assert First(s.post, room) == [];
      } else {
        ToppedTrail(s, room, o, x, d, q);
        assert Refilled(s, o) == Topped(s, room);
      }
    }
  }

  lemma ClearedTrail(s: State, o: Options, x: nat, d: nat, q: nat)
    requires Trail(s, x, o, d, q)
    ensures Trail(Cleared(s), x, o, d, q)
  {
    hide AckAll, Marked, Load, Weight, Reached, Count, InQueue;
    ClearedLoad(s, x);
    AcksApart(s, Cleared(s).acks, x, o, Weight(o, d) + q);
    Ungone(s.(acks := Cleared(s).acks), Cleared(s), x, o, Weight(o, d) + q);
  }

  lemma WorkTrail(s: State, o: Options, w: World, x: nat, d: nat, q: nat)
    requires CanWork(o) && Trail(s, x, o, d, q) && s.ok == [] && Count(Doubled(s.incoming, o, w), x) == 0
    ensures var room := PostRoom(o.batch, |Worked(s, o, w).ok|);
            Trail(AfterWork(s, o, w), x, o, d, q + Count(First(s.post, if room > 0 then room else 0), x))
  {
    hide Trail, Worked, Refilled, Cleared, Count, First;
    var t := Worked(s, o, w);
    var room := PostRoom(o.batch, |t.ok|);
    var q' := q + Count(First(s.post, if room > 0 then room else 0), x);
    WorkedTrail(s, o, w, x, d, q);
    RetriedWorkTrail(t, o, x, d, q);
    RefilledTrail(RetriedWork(t, o), o, x, d, q);
    ClearedTrail(Refilled(RetriedWork(t, o), o), o, x, d, q');
  }

  lemma PublishedMarked(s: State, o: Options, w: World, x: nat, n: nat)
    requires Marked(s, x, o, n)
    ensures Marked(Published(s, o, w), x, o, n)
  {
    hide Marked, PublishAll;
    EmptiedMarked(s, x, o, n);
    PublishMarks(s.ok, o, w, x, n) by { MarkedLists(s, x, o, n); }
    PutMarked(s.(ok := []), PublishAll(s.ok, w), x, o, n);
    hide PutAll;
  }

  lemma RetriedPostMarked(s: State, o: Options, x: nat, n: nat)
    requires Marked(s, x, o, n)
    ensures Marked(RetriedPost(s, o), x, o, n)
  {
    hide Marks, Kept, GivenUp, BumpAll;
    var b := BumpAll(s.failed, false);
    CountedMarks(s.failed, x, o, n);
    MarksConcat(s.post.waiting, Kept(b, o), x, o, n, InRetry);
    MarksConcat(s.gaveUp, GivenUp(b, o), x, o, n, Over);
    EmptiedMarked(s, x, o, n);
  }

  lemma FinishedMarked(s: State, o: Options, x: nat, n: nat)
    requires Marked(s, x, o, n)
    ensures Marked(Finished(s), x, o, n)
  {
    EmptiedMarked(s, x, o, n);
    EmptiedMarked(s.(ok := []), x, o, n);
    hide Marked;
    Ungone(s.(ok := [], failed := []), Finished(s), x, o, n);
  }

  lemma PostTrail(s: State, o: Options, w: World, x: nat, d: nat, q: nat)
    requires Trail(s, x, o, d, q) && s.incoming == [] && s.rejected == [] && s.failed == []
    ensures Trail(AfterPost(s, o, w), x, o, d, q)
  {
    var n := Weight(o, d) + q;
    hide Marked, Load, Weight, Reached;
    PostIdle(s, o, w);
    PostLoad(s, o, w, x);
    PublishedMarked(s, o, w, x, n);
    RetriedPostMarked(Published(s, o, w), o, x, n);
    FinishedMarked(RetriedPost(Published(s, o, w), o), o, x, n);
    assert AfterPost(s, o, w).download == s.download;
    hide Published, RetriedPost, Finished, Count, InQueue;
  }

  /** A pass carries the trail on: `x` is found again with the counts of how often it was taken. */
  lemma PassTrail(s: State, arrived: seq<Message>, qty: int, o: Options, ws: Worlds, x: nat, d: nat, q: nat)
    requires CanWork(o) && Trail(s, x, o, d, q) && NewOnly(arrived, x)
    requires Count(arrived, x) == 0 || (Count(arrived, x) == 1 && Load(s, x) == d == q == 0)
    requires Count(Doubled(AtWork(s, arrived, qty, o, ws), o, ws.work), x) == 0
    ensures Trail(Pass(s, arrived, qty, o, ws), x, o, d + Count(TakenDown(s, arrived, qty, o, ws), x),
                  q + Count(TakenPost(s, arrived, qty, o, ws), x))
  {
    hide Trail, Gathered, TakenDown, AfterWork, AfterPost, Count, Worked, First, NewOnly, Doubled, Load;
    var g := Gathered(s, arrived, qty, o);
    var f := AfterFilter(g, o, ws.filter);
    var d' := d + Count(TakenDown(s, arrived, qty, o, ws), x);
    var q' := q + Count(TakenPost(s, arrived, qty, o, ws), x);
    FilterTrail(s, arrived, qty, o, ws, x, d, q);
    SamePost(s, arrived, qty, o, ws.filter);
    WorkTrail(f, o, ws.work, x, d', q);
    WorkIdle(f, o, ws.work);
    PostTrail(AfterWork(f, o, ws.work), o, ws.post, x, d', q');
  }

  lemma SamePost(s: State, arrived: seq<Message>, qty: int, o: Options, w: World)
    ensures var f := AfterFilter(Gathered(s, arrived, qty, o), o, w); f.post == s.post && f.ok == []
  {
    hide FilterAll, On, Kept, GivenUp, BumpAll, AckAll;
  }

  // When a pass takes from the queues.

  function Least(a: nat, b: nat): nat {
    if a < b then a else b
  }

  lemma FirstIs(q: Pending, k: nat)
    ensures var j := Least(k, |q.ready|);
            First(q, k) == q.ready[..j] && Rest(q, k) == q.(ready := q.ready[j..])
  {
  }

  lemma FilterQueues(s: State, arrived: seq<Message>, qty: int, o: Options, ws: Worlds)
    ensures var f := AfterFilter(Gathered(s, arrived, qty, o), o, ws.filter);
            f.download == Rest(s.download, DownRoom(s, arrived, qty, o, ws)) && f.post == s.post && f.ok == []
  {
    hide FilterAll, On, Kept, GivenUp, BumpAll, AckAll, First, Rest, Room;
    RestNone(s.download);
    if Size(s.download) < 1 {
      NoRest(s.download, DownRoom(s, arrived, qty, o, ws));
    }
  }

  lemma NoRest(q: Pending, k: nat)
    requires Size(q) < 1
    ensures Rest(q, k) == q
  {
  }

  lemma WorkQueues(s: State, o: Options, w: World)
    requires CanWork(o) && s.ok == []
    ensures var t, room := AfterWork(s, o, w), PostRoom(o.batch, |Worked(s, o, w).ok|);
            && t.download.ready == s.download.ready && t.post == Rest(s.post, if room > 0 then room else 0)
            && Worked(s, o, w).ok == On(WorkAll(s.incoming, o, w), Ok)
  {
    hide WorkAll, On, Kept, GivenUp, BumpAll, AckAll, First, Rest, PostRoom;
    RestNone(s.post);
    var room := PostRoom(o.batch, |Worked(s, o, w).ok|);
    if Size(s.post) < 1 {
      NoRest(s.post, if room > 0 then room else 0);
    }
    assert [] + On(WorkAll(s.incoming, o, w), Ok) == On(WorkAll(s.incoming, o, w), Ok);
  }

  lemma PostQueues(s: State, o: Options, w: World)
    ensures var t := AfterPost(s, o, w); t.download == s.download && t.post.ready == s.post.ready
  {
    hide PublishAll, On, Kept, GivenUp, BumpAll;
  }

  /** What a pass takes: the front of what is ready in either queue, as far as there is room, and
      nothing else. */
  lemma TakesFront(s: State, arrived: seq<Message>, qty: int, o: Options, ws: Worlds)
    requires CanWork(o)
    ensures var t := Pass(s, arrived, qty, o, ws);
            var d := Least(DownRoom(s, arrived, qty, o, ws), |s.download.ready|);
            var u := Least(UpRoom(s, arrived, qty, o, ws), |s.post.ready|);
            && TakenDown(s, arrived, qty, o, ws) == s.download.ready[..d] && t.download.ready == s.download.ready[d..]
            && TakenPost(s, arrived, qty, o, ws) == s.post.ready[..u] && t.post.ready == s.post.ready[u..]
  {
    hide Gathered, AfterFilter, AfterWork, AfterPost, Worked, First, Rest, DownRoom, PostRoom, WorkAll, On;
    var f := AfterFilter(Gathered(s, arrived, qty, o), o, ws.filter);
    FilterQueues(s, arrived, qty, o, ws);
    WorkQueues(f, o, ws.work);
    PostQueues(AfterWork(f, o, ws.work), o, ws.post);
    FirstIs(s.download, DownRoom(s, arrived, qty, o, ws));
    FirstIs(s.post, UpRoom(s, arrived, qty, o, ws));
  }

  /** When there is room. Without refiltering: when less than half a batch has passed the filter; with
      it, when the pass asks for messages. For posts: when the work has put less than half a batch, or
      less than a whole one of at most 2, on the ok list. */
  lemma RoomIff(s: State, arrived: seq<Message>, qty: int, o: Options, ws: Worlds)
    requires CanWork(o) && Idle(s)
    ensures DownRoom(s, arrived, qty, o, ws) > 0 <==>
              if o.refilter then qty > 0 else 2 * |On(FilterAll(arrived, o, ws.filter), Incoming)| < o.batch
    ensures UpRoom(s, arrived, qty, o, ws) > 0 <==>
              |On(WorkAll(AtWork(s, arrived, qty, o, ws), o, ws.work), Ok)|
              < if o.batch > 2 then o.batch / 2 else o.batch
  {
    hide AfterFilter, WorkAll, FilterAll, On, Worked;
    FilteredRoom(s, arrived, qty, o, ws);
    FilterQueues(s, arrived, qty, o, ws);
    hide Gathered, DownRoom;
    WorkQueues(AfterFilter(Gathered(s, arrived, qty, o), o, ws.filter), o, ws.work);
  }

  lemma FilteredRoom(s: State, arrived: seq<Message>, qty: int, o: Options, ws: Worlds)
    requires Idle(s)
    ensures DownRoom(s, arrived, qty, o, ws) > 0 <==>
              if o.refilter then qty > 0 else 2 * |On(FilterAll(arrived, o, ws.filter), Incoming)| < o.batch
  {
    hide FilterAll, On, IdSet;
    if !o.refilter {
      assert s.incoming + arrived == arrived;
      assert [] + On(FilterAll(arrived, o, ws.filter), Incoming) == On(FilterAll(arrived, o, ws.filter), Incoming);
    }
  }

  // Runs.

  /** How often a step takes `x` from the download queue, and from the post queue. */
  ghost function Down(s: State, st: Step, o: Options, x: nat): nat {
    if st.PassStep? then Count(TakenDown(s, st.arrived, st.qty, o, st.ws), x) else 0
  }

  ghost function Up(s: State, st: Step, o: Options, x: nat): nat
    requires CanStep(s, st, o)
  {
    if st.PassStep? then Count(TakenPost(s, st.arrived, st.qty, o, st.ws), x) else 0
  }

  ghost function Downs(s: State, steps: seq<Step>, o: Options, x: nat): nat
    requires CanRun(s, steps, o)
    decreases |steps|
  {
    if steps == [] then 0 else Down(s, steps[0], o, x) + Downs(Next(s, steps[0], o), steps[1..], o, x)
  }

  ghost function Ups(s: State, steps: seq<Step>, o: Options, x: nat): nat
    requires CanRun(s, steps, o)
    decreases |steps|
  {
    if steps == [] then 0 else Up(s, steps[0], o, x) + Ups(Next(s, steps[0], o), steps[1..], o, x)
  }

  ghost predicate AllNew(steps: seq<Step>, x: nat) {
    forall i | 0 <= i < |steps| :: steps[i].PassStep? ==> NewOnly(steps[i].arrived, x)
  }

  lemma {:induction false} SubseqMarks(a: seq<Message>, b: seq<Message>, x: nat, o: Options, n: nat)
    requires IsSubseq(a, b) && Marks(b, x, o, n, InRetry)
    ensures Marks(a, x, o, n, InRetry)
    decreases |b|
  {
    hide Mark;
    if a != [] {
      var i, j := |a| - 1, |b| - 1;
      if a[i] == b[j] && IsSubseq(a[..i], b[..j]) {
        SubseqMarks(a[..i], b[..j], x, o, n);
      } else {
        SubseqMarks(a, b[..j], x, o, n);
      }
    }
  }

  lemma RotatedMarks(q: Pending, kept: Option<seq<Message>>, x: nat, o: Options, n: nat)
    requires Rotates(q, kept) && QueueMarks(q, x, o, n)
    ensures QueueMarks(Rotated(q, kept), x, o, n)
    ensures InQueue(Rotated(q, kept), x) <= InQueue(q, x)
    ensures InQueue(q, x) > 0 ==> !Reached(o, n)
  {
    RotatedCount(q, kept, x);
    if kept.Some? {
      SubseqMarks(kept.value, q.waiting, x, o, n);
    }
    if Count(q.ready, x) > 0 {
      var i := Present(q.ready, x);
      assert Mark(q.ready[i], x, o, n, InRetry);
    } else if Count(q.waiting, x) > 0 {
      var i := Present(q.waiting, x);
      assert Mark(q.waiting[i], x, o, n, InRetry);
    }
  }

  lemma HousekeepingTrail(s: State, st: Step, o: Options, x: nat, d: nat, q: nat)
    requires Trail(s, x, o, d, q) && st.Housekeeping? && CanStep(s, st, o)
    ensures Trail(Next(s, st, o), x, o, d, q) && Load(Next(s, st, o), x) <= Load(s, x)
  {
    hide Marks, Weight, Rotated, Count, Reached, InQueue, Rotates;
    var n := Weight(o, d) + q;
    RotatedMarks(s.download, st.download, x, o, n);
    RotatedMarks(s.post, st.post, x, o, n);
    hide QueueMarks;
  }

  /** A message that enters the flow in a pass does so by arriving. */
  lemma OnlyArrived(s: State, st: Step, o: Options, x: nat)
    requires st.PassStep? && CanStep(s, st, o)
    requires Gained(s, st, o, x) == 0 || (Gained(s, st, o, x) == 1 && Load(s, x) == 0)
    ensures Count(Doubled(AtWork(s, st.arrived, st.qty, o, st.ws), o, st.ws.work), x) == 0
    ensures Gained(s, st, o, x) == Count(st.arrived, x)
  {
    var g := Gathered(s, st.arrived, st.qty, o);
    var f := AfterFilter(g, o, st.ws.filter);
    GatheredLoad(s, st.arrived, st.qty, o, x);
    FilterLoad(g, o, st.ws.filter, x);
    DoubledCount(f.incoming, o, st.ws.work, x);
    hide Gathered, AfterFilter, Doubled, Count;
  }

  lemma StepTrail(s: State, st: Step, o: Options, x: nat, d: nat, q: nat)
    requires CanStep(s, st, o) && Trail(s, x, o, d, q) && (st.PassStep? ==> NewOnly(st.arrived, x))
    requires Gained(s, st, o, x) == 0 || (Gained(s, st, o, x) == 1 && Load(s, x) == d == q == 0)
    ensures Trail(Next(s, st, o), x, o, d + Down(s, st, o, x), q + Up(s, st, o, x))
    ensures Load(Next(s, st, o), x) <= Load(s, x) + Gained(s, st, o, x)
  {
    hide Trail, Pass, TakenDown, TakenPost, Count, Doubled, NewOnly;
    StepConserves(s, st, o, x);
    hide Load;
    if st.PassStep? {
      OnlyArrived(s, st, o, x);
      PassTrail(s, st.arrived, st.qty, o, st.ws, x, d, q);
    } else {
      HousekeepingTrail(s, st, o, x, d, q);
    }
  }

  /** What is nowhere is not taken. */
  lemma NotTaken(s: State, st: Step, o: Options, x: nat)
    requires CanStep(s, st, o) && Load(s, x) == 0
    ensures Down(s, st, o, x) == 0 && Up(s, st, o, x) == 0
  {
    if st.PassStep? {
      FirstCount(s.download, DownRoom(s, st.arrived, st.qty, o, st.ws), x);
      FirstCount(s.post, UpRoom(s, st.arrived, st.qty, o, st.ws), x);
      hide DownRoom, UpRoom, Count, First, Rest;
    }
  }

  lemma NewTail(steps: seq<Step>, x: nat)
    requires steps != [] && AllNew(steps, x)
    ensures AllNew(steps[1..], x) && (steps[0].PassStep? ==> NewOnly(steps[0].arrived, x))
  {
    hide NewOnly;
    forall i | 0 <= i < |steps[1..]| && steps[1..][i].PassStep? ensures NewOnly(steps[1..][i].arrived, x) {
      assert steps[1..][i] == steps[i + 1];
    }
  }

  lemma NoSteps(s: State, steps: seq<Step>, o: Options, x: nat)
    requires CanRun(s, steps, o) && steps == []
    ensures Run(s, steps, o) == s && Downs(s, steps, o, x) == Ups(s, steps, o, x) == AllGained(s, steps, o, x) == 0
  {
  }

  lemma FirstStep(s: State, steps: seq<Step>, o: Options, x: nat)
    requires CanRun(s, steps, o) && steps != []
    ensures CanStep(s, steps[0], o) && CanRun(Next(s, steps[0], o), steps[1..], o)
    ensures var t := Next(s, steps[0], o);
            && Run(s, steps, o) == Run(t, steps[1..], o)
            && Downs(s, steps, o, x) == Down(s, steps[0], o, x) + Downs(t, steps[1..], o, x)
            && Ups(s, steps, o, x) == Up(s, steps[0], o, x) + Ups(t, steps[1..], o, x)
            && AllGained(s, steps, o, x) == Gained(s, steps[0], o, x) + AllGained(t, steps[1..], o, x)
  {
    hide Down, Up, Gained, Next, CanStep;
  }

  /** Over a run in which `x` enters the flow at most once, the trail leads to it. */
  lemma {:induction false} RunTrail(s: State, steps: seq<Step>, o: Options, x: nat, d: nat, q: nat)
    requires CanRun(s, steps, o) && Trail(s, x, o, d, q) && AllNew(steps, x)
    requires AllGained(s, steps, o, x) == 0 || (AllGained(s, steps, o, x) == 1 && Load(s, x) == d == q == 0)
    ensures Trail(Run(s, steps, o), x, o, d + Downs(s, steps, o, x), q + Ups(s, steps, o, x))
    decreases |steps|
  {
    hide *;
    if steps == [] {
      NoSteps(s, steps, o, x);
    } else {
      FirstStep(s, steps, o, x);
      NewTail(steps, x);
      StepTrail(s, steps[0], o, x, d, q);
      if Load(s, x) == 0 {
        NotTaken(s, steps[0], o, x);
      }
      RunTrail(Next(s, steps[0], o), steps[1..], o, x, d + Down(s, steps[0], o, x), q + Up(s, steps[0], o, x));
    }
  }

  lemma {:induction false} IdleRun(s: State, steps: seq<Step>, o: Options)
    requires CanRun(s, steps, o) && Idle(s)
    ensures Idle(Run(s, steps, o))
    decreases |steps|
  {
    if steps != [] {
      if steps[0].PassStep? {
        PassIdle(s, steps[0].arrived, steps[0].qty, o, steps[0].ws);
      }
      hide Pass;
      IdleRun(Next(s, steps[0], o), steps[1..], o);
    }
  }

  /** `x` was done or published, rejected, or put on no list. */
  ghost predicate OtherwiseGone(s: State, x: nat) {
    Count(s.done, x) + Count(s.refused, x) + Count(s.dropped, x) > 0
  }

  lemma TrailEnd(s: State, x: nat, o: Options, d: nat, q: nat)
    requires Trail(s, x, o, d, q) && Idle(s)
    ensures Count(s.gaveUp, x) > 0 ==> Reached(o, Weight(o, d) + q)
    ensures !OtherwiseGone(s, x) ==> (Count(s.gaveUp, x) > 0 <==> Reached(o, Weight(o, d) + q))
    ensures (d > 0 ==> !Reached(o, Weight(o, d - 1))) && (q > 0 ==> !Reached(o, Weight(o, d) + q - 1))
    ensures !OtherwiseGone(s, x) && Count(s.gaveUp, x) == 0 ==> Load(s, x) == Queued(s, x)
  {
    var n := Weight(o, d) + q;
    if Count(s.gaveUp, x) > 0 {
      var i := Present(s.gaveUp, x);
      assert Mark(s.gaveUp[i], x, o, n, Over);
    } else if !OtherwiseGone(s, x) && Load(s, x) > 0 {
      InRetryBelow(s.download, x, o, n);
      InRetryBelow(s.post, x, o, n);
    }
    hide Marks, Weight, Reached, Early;
  }

  lemma TrailStart(s: State, x: nat, o: Options)
    requires Load(s, x) == 0
    ensures Trail(s, x, o, 0, 0)
  {
    AllAbsent(s, x, o, 0);
    hide Marked, Count;
  }

  lemma InRetryBelow(q: Pending, x: nat, o: Options, n: nat)
    requires QueueMarks(q, x, o, n)
    ensures InQueue(q, x) > 0 ==> !Reached(o, n)
  {
    if Count(q.ready, x) > 0 {
      var i := Present(q.ready, x);
      assert Mark(q.ready[i], x, o, n, InRetry);
    } else if Count(q.waiting, x) > 0 {
      var i := Present(q.waiting, x);
      assert Mark(q.waiting[i], x, o, n, InRetry);
    }
  }

  /** Over any run, with any other messages, any housekeepings and any answers: a message that enters
      the flow once, and is neither done or published, nor rejected, nor dropped, has been given up if
      and only if there is a limit R and its takings from the two retry queues have counted up to it;
      every other such message is still in a retry queue or was removed by a housekeeping. */
  lemma GivenUpIff(s: State, steps: seq<Step>, o: Options, x: nat)
    requires CanRun(s, steps, o) && Idle(s) && Load(s, x) == 0
    requires AllNew(steps, x) && AllGained(s, steps, o, x) <= 1
    ensures var t, d, q := Run(s, steps, o), Downs(s, steps, o, x), Ups(s, steps, o, x);
            && (Count(t.gaveUp, x) > 0 ==> Reached(o, Weight(o, d) + q))
            && (!OtherwiseGone(t, x) ==> (Count(t.gaveUp, x) > 0 <==> Reached(o, Weight(o, d) + q)))
            && (d > 0 ==> !Reached(o, Weight(o, d - 1))) && (q > 0 ==> !Reached(o, Weight(o, d) + q - 1))
            && (!OtherwiseGone(t, x) && Count(t.gaveUp, x) == 0 ==>
                  Queued(t, x) + AllLost(s, steps, o, x) == AllGained(s, steps, o, x))
  {
    hide *;
    RunConserves(s, steps, o, x);
    TrailStart(s, x, o);
    RunTrail(s, steps, o, x, 0, 0);
    IdleRun(s, steps, o);
    TrailEnd(Run(s, steps, o), x, o, Downs(s, steps, o, x), Ups(s, steps, o, x));
  }

  /** A message whose transfers fail is given up when it has been taken (R + 1) / 2 times from the
      download queue, unless there is no limit, or refiltering and a limit of 2 or more; one whose
      publications alone fail when it has been taken R times from the post queue. */
  lemma LimitIs(o: Options, d: nat, q: nat)
    requires (d > 0 ==> !Reached(o, Weight(o, d - 1))) && (q > 0 ==> !Reached(o, Weight(o, d) + q - 1))
    ensures q == 0 ==>
              (Reached(o, Weight(o, d) + q) <==>
                 o.retryCountMax > 0 && (!o.refilter || o.retryCountMax == 1) && d == (o.retryCountMax + 1) / 2)
    ensures d == 0 ==> (Reached(o, Weight(o, d) + q) <==> o.retryCountMax > 0 && q == o.retryCountMax)
  {
  }

  // Too busy to retry.

  /** What is ready in the post queue, or in the download queue. */
  function Ready(s: State, post: bool): seq<Message> {
    if post then s.post.ready else s.download.ready
  }

  ghost function RoomFor(s: State, st: Step, o: Options, post: bool): nat
    requires CanStep(s, st, o) && st.PassStep?
  {
    if post then UpRoom(s, st.arrived, st.qty, o, st.ws) else DownRoom(s, st.arrived, st.qty, o, st.ws)
  }

  /** No pass of the run has room for retries. */
  ghost predicate Busy(s: State, steps: seq<Step>, o: Options, post: bool)
    requires CanRun(s, steps, o)
    decreases |steps|
  {
    steps == []
    || (&& (steps[0].PassStep? ==> RoomFor(s, steps[0], o, post) == 0)
        && Busy(Next(s, steps[0], o), steps[1..], o, post))
  }

  lemma BusyStep(s: State, st: Step, o: Options, x: nat, post: bool)
    requires CanStep(s, st, o) && Ready(s, post) != []
    requires st.PassStep? ==> RoomFor(s, st, o, post) == 0
    ensures Ready(Next(s, st, o), post) == Ready(s, post)
    ensures (if post then Up(s, st, o, x) else Down(s, st, o, x)) == 0
  {
    if st.PassStep? {
      TakesFront(s, st.arrived, st.qty, o, st.ws);
      NothingTaken(s.download, x);
      NothingTaken(s.post, x);
      assert Ready(s, post)[0..] == Ready(s, post);
      hide Pass, DownRoom, UpRoom, FilterAll, On, WorkAll;
    }
  }

  /** As long as no pass has room, what is ready stays so and is neither taken nor, since a queue that
      is not used up is not rotated, looked at by a housekeeping: no limit and no age ends it. */
  lemma {:induction false} BusyStays(s: State, steps: seq<Step>, o: Options, x: nat, post: bool)
    requires CanRun(s, steps, o) && Ready(s, post) != [] && Busy(s, steps, o, post)
    ensures Ready(Run(s, steps, o), post) == Ready(s, post)
    ensures (if post then Ups(s, steps, o, x) else Downs(s, steps, o, x)) == 0
    decreases |steps|
  {
    if steps == [] {
    } else {
      BusyStep(s, steps[0], o, x, post);
      hide CanStep, Next, Down, Up, RoomFor, Ready;
      BusyStays(Next(s, steps[0], o), steps[1..], o, x, post);
    }
  }

  /** A pass leaves the ready part of a queue as it is if and only if that is empty or there is no room. */
  lemma NotTakenIff(s: State, arrived: seq<Message>, qty: int, o: Options, ws: Worlds)
    requires CanWork(o) && Idle(s)
    ensures var t := Pass(s, arrived, qty, o, ws);
            && (t.download.ready == s.download.ready <==>
                  s.download.ready == [] || DownRoom(s, arrived, qty, o, ws) == 0)
            && (t.post.ready == s.post.ready <==> s.post.ready == [] || UpRoom(s, arrived, qty, o, ws) == 0)
  {
    TakesFront(s, arrived, qty, o, ws);
    hide Pass, DownRoom, UpRoom, FilterAll, On, WorkAll;
  }

  /** A flow of plain files with a batch of 2: everything passes the filter, no transfer succeeds. */
  function Plain(limit: int): Options {
    Options(false, false, 0, 0, 0, [], true, true, 1, {}, 0, NoInflight, true, 2, limit, false, false)
  }

  const NO_LUCK := World(0, (i, k) => false, i => false, i => true, i => true, i => true, i => true, i => true,
                         i => true, (i, a) => false, (i, a) => false, (i, a) => false, (i, a) => false, i => false,
                         i => false, i => None, i => false, (i, a) => NotYet, (i, a) => 0, i => false)

  function PlainFile(id: nat): Message {
    Message(id, 0, None, None, false, false, false, None, false, false, false, 0, 0, 0, 0)
  }

  function TwoArrive(i: nat): Step {
    PassStep([PlainFile(2 * i + 1), PlainFile(2 * i + 2)], 2, Worlds(NO_LUCK, NO_LUCK, NO_LUCK))
  }

  /** `n` passes in each of which two new messages arrive. */
  function TwosArrive(i: nat, n: nat): seq<Step>
    decreases n
  {
    if n == 0 then [] else [TwoArrive(i)] + TwosArrive(i + 1, n - 1)
  }

  lemma PlainFiltered(id: nat, o: Options, i: nat)
    requires o == Plain(o.retryCountMax)
    ensures FilterOne(PlainFile(id), o, NO_LUCK, i).place == Incoming
  {
    assert MaskFrom(o, NO_LUCK, i, 0) == None;
  }

  lemma TwoFiltered(i: nat, limit: int)
    ensures |On(FilterAll(TwoArrive(i).arrived, Plain(limit), NO_LUCK), Incoming)| == 2
  {
    var o, ms := Plain(limit), TwoArrive(i).arrived;
    hide FilterOne;
    PlainFiltered(2 * i + 1, o, 0);
    PlainFiltered(2 * i + 2, o, 1);
    assert ms[..1][..0] == [];
    assert FilterAll(ms[..1], o, NO_LUCK) == [FilterOne(ms[0], o, NO_LUCK, 0)];
    var es := FilterAll(ms, o, NO_LUCK);
    assert es == [FilterOne(ms[0], o, NO_LUCK, 0), FilterOne(ms[1], o, NO_LUCK, 1)];
    assert es[..1] == [es[0]] && es[..1][..0] == [];
    assert On(es[..1], Incoming) == [es[0].m];
  }

  lemma TwoBusy(s: State, limit: int, i: nat)
    requires Idle(s)
    ensures CanStep(s, TwoArrive(i), Plain(limit)) && RoomFor(s, TwoArrive(i), Plain(limit), false) == 0
    ensures Idle(Next(s, TwoArrive(i), Plain(limit)))
  {
    var o, st := Plain(limit), TwoArrive(i);
    RoomIff(s, st.arrived, st.qty, o, st.ws);
    TwoFiltered(i, limit);
    PassIdle(s, st.arrived, st.qty, o, st.ws);
    hide Pass, DownRoom, FilterAll, On;
  }

  lemma BusyCons(s: State, st: Step, steps: seq<Step>, o: Options, post: bool)
    requires CanStep(s, st, o) && (st.PassStep? ==> RoomFor(s, st, o, post) == 0)
    requires CanRun(Next(s, st, o), steps, o) && Busy(Next(s, st, o), steps, o, post)
    ensures CanRun(s, [st] + steps, o) && Busy(s, [st] + steps, o, post)
  {
    hide CanStep, Next, RoomFor;
    RunCons(s, st, steps, o);
    assert ([st] + steps)[0] == st && ([st] + steps)[1..] == steps;
  }

  lemma BusyNil(s: State, o: Options, post: bool)
    ensures CanRun(s, [], o) && Busy(s, [], o, post)
  {
  }

  lemma {:induction false} TwosBusy(s: State, limit: int, i: nat, n: nat)
    requires Idle(s)
    ensures CanRun(s, TwosArrive(i, n), Plain(limit)) && Busy(s, TwosArrive(i, n), Plain(limit), false)
    decreases n
  {
    hide CanStep, Next, RoomFor, Plain, Idle, CanRun, Busy;
    if n == 0 {
      BusyNil(s, Plain(limit), false);
    } else {
      TwoBusy(s, limit, i);
      TwosBusy(Next(s, TwoArrive(i), Plain(limit)), limit, i + 1, n - 1);
      BusyCons(s, TwoArrive(i), TwosArrive(i + 1, n - 1), Plain(limit), false);
    }
  }

  /** With a batch of 2 and two new messages in every pass, whatever is ready to be retried stays so
      through any number of passes, under any limit. */
  lemma BusyForever(s: State, x: nat, limit: int, n: nat)
    requires Idle(s) && s.download.ready != []
    ensures var steps, o := TwosArrive(0, n), Plain(limit);
            && CanRun(s, steps, o) && Run(s, steps, o).download.ready == s.download.ready
            && Downs(s, steps, o, x) == 0
  {
    TwosBusy(s, limit, 0, n);
    hide CanRun, Run, Downs;
    BusyStays(s, TwosArrive(0, n), Plain(limit), x, false);
  }
}
