/** One pass of a flow as a function of its state: the four lists of the work list, the two retry
    queues, the acknowledgements, and what has left the flow. */
module FlowState {
  import opened Sequences
  import opened Worklist

  // Lists of entries.

  function On(es: seq<Entry>, p: Place): seq<Message> {
    if es == [] then []
    else
      var init := On(es[..|es| - 1], p);
      if es[|es| - 1].place == p then init + [es[|es| - 1].m] else init
  }

  /** How often the message `x` occurs. */
  ghost function Count(ms: seq<Message>, x: nat): nat {
    if ms == [] then 0 else Count(ms[..|ms| - 1], x) + if ms[|ms| - 1].id == x then 1 else 0
  }

  ghost function Entered(es: seq<Entry>, x: nat): nat {
    if es == [] then 0 else Entered(es[..|es| - 1], x) + if es[|es| - 1].m.id == x then 1 else 0
  }

  lemma CountSnoc(ms: seq<Message>, m: Message, x: nat)
    ensures Count(ms + [m], x) == Count(ms, x) + if m.id == x then 1 else 0
  {
    assert (ms + [m])[..|ms|] == ms;
  }

  lemma {:induction false} CountConcat(a: seq<Message>, b: seq<Message>, x: nat)
    ensures Count(a + b, x) == Count(a, x) + Count(b, x)
    decreases |b|
  {
    if b == [] {
      assert a + b == a;
    } else {
      var n := |b| - 1;
      CountConcat(a, b[..n], x);
      assert (a + b)[..|a + b| - 1] == a + b[..n];
    }
  }

  lemma {:induction false} EnteredConcat(a: seq<Entry>, b: seq<Entry>, x: nat)
    ensures Entered(a + b, x) == Entered(a, x) + Entered(b, x)
    decreases |b|
  {
    if b == [] {
      assert a + b == a;
    } else {
      var n := |b| - 1;
      EnteredConcat(a, b[..n], x);
      assert (a + b)[..|a + b| - 1] == a + b[..n];
    }
  }

  /** Every entry is in exactly one of the five places. */
  lemma {:induction false} Places(es: seq<Entry>, x: nat)
    ensures Entered(es, x)
         == Count(On(es, Incoming), x) + Count(On(es, Ok), x) + Count(On(es, Rejected), x)
            + Count(On(es, Failed), x) + Count(On(es, Nowhere), x)
  {
    if es != [] {
      var n := |es| - 1;
      Places(es[..n], x);
      OnCount(es, Incoming, x);
      OnCount(es, Ok, x);
      OnCount(es, Rejected, x);
      OnCount(es, Failed, x);
      OnCount(es, Nowhere, x);
      hide On, Count;
    }
  }

  lemma OnCount(es: seq<Entry>, p: Place, x: nat)
    requires es != []
    ensures var n := |es| - 1;
            Count(On(es, p), x) == Count(On(es[..n], p), x) + if es[n].place == p && es[n].m.id == x then 1 else 0
  {
    var n := |es| - 1;
    CountSnoc(On(es[..n], p), es[n].m, x);
  }

  lemma OnSnoc(es: seq<Entry>, e: Entry, p: Place)
    ensures On(es + [e], p) == if e.place == p then On(es, p) + [e.m] else On(es, p)
  {
    assert (es + [e])[..|es|] == es;
  }

  // What the filter, the work and the publication make of a list.

  function FilterAll(ms: seq<Message>, o: Options, w: World): seq<Entry> {
    if ms == [] then []
    else
      var n := |ms| - 1;
      FilterAll(ms[..n], o, w) + [FilterOne(ms[n], o, w, n)]
  }

  function Entries(m: Message, ls: seq<Landing>): (es: seq<Entry>)
    ensures |es| == |ls| && forall i | 0 <= i < |ls| :: es[i] == Landed(m, ls[i])
  {
    seq(|ls|, i requires 0 <= i < |ls| => Landed(m, ls[i]))
  }

  function DownloadAll(ms: seq<Message>, o: Options, w: World): seq<Entry> {
    if ms == [] then []
    else
      var n := |ms| - 1;
      DownloadAll(ms[..n], o, w) + Entries(ms[n], Landings(ms[n], o, w, n))
  }

  function SendAll(ms: seq<Message>, o: Options, w: World): seq<Entry>
    requires o.attempts >= 1
  {
    if ms == [] then []
    else
      var n := |ms| - 1;
      SendAll(ms[..n], o, w) + [Landed(ms[n], Sending(ms[n], o, w, n))]
  }

  /** Nothing is transferred: everything is done as it is. */
  function PassAll(ms: seq<Message>): seq<Entry> {
    if ms == [] then [] else PassAll(ms[..|ms| - 1]) + [Entry(Ok, ms[|ms| - 1])]
  }

  predicate CanWork(o: Options) {
    o.sender && o.download ==> o.attempts >= 1
  }

  function WorkAll(ms: seq<Message>, o: Options, w: World): seq<Entry>
    requires CanWork(o)
  {
    if !o.download then PassAll(ms)
    else if o.sender then SendAll(ms, o, w)
    else DownloadAll(ms, o, w)
  }

  function Posted(m: Message, ok: bool): Entry {
    Entry(if ok then Ok else Failed, m.(posts := m.posts + 1))
  }

  function PublishAll(ms: seq<Message>, w: World): seq<Entry> {
    if ms == [] then []
    else
      var n := |ms| - 1;
      PublishAll(ms[..n], w) + [Posted(ms[n], w.publish(n))]
  }

  // The retry queues.

  /** `ready` can be taken now, `waiting` after the next housekeeping. */
  datatype Pending = Pending(ready: seq<Message>, waiting: seq<Message>)

  function Size(q: Pending): nat {
    |q.ready| + |q.waiting|
  }

  function First(q: Pending, n: nat): seq<Message> {
    if n < |q.ready| then q.ready[..n] else q.ready
  }

  function Rest(q: Pending, n: nat): Pending {
    q.(ready := if n < |q.ready| then q.ready[n..] else [])
  }

  function Bump(m: Message): Message {
    m.(retries := m.retries + 1)
  }

  /** The fields that the flow computed are removed before a message is filtered again; the retry
      counter is one of them. */
  function Scrub(m: Message): Message {
    m.(renameUnlink := false, newDir := false, newFile := false, report := 0, retries := 0)
  }

  predicate Spent(m: Message, o: Options) {
    o.retryCountMax > 0 && m.retries > o.retryCountMax
  }

  function BumpAll(ms: seq<Message>, scrub: bool): (r: seq<Message>)
    ensures |r| == |ms|
    ensures forall i | 0 <= i < |ms| :: r[i] == Bump(if scrub then Scrub(ms[i]) else ms[i])
  {
    seq(|ms|, i requires 0 <= i < |ms| => Bump(if scrub then Scrub(ms[i]) else ms[i]))
  }

  function Kept(ms: seq<Message>, o: Options): seq<Message> {
    if ms == [] then []
    else
      var init := Kept(ms[..|ms| - 1], o);
      if Spent(ms[|ms| - 1], o) then init else init + [ms[|ms| - 1]]
  }

  ghost function GivenUp(ms: seq<Message>, o: Options): seq<Message> {
    if ms == [] then []
    else
      var init := GivenUp(ms[..|ms| - 1], o);
      if Spent(ms[|ms| - 1], o) then init + [ms[|ms| - 1]] else init
  }

  lemma {:induction false} KeptOrGivenUp(ms: seq<Message>, o: Options, x: nat)
    ensures Count(ms, x) == Count(Kept(ms, o), x) + Count(GivenUp(ms, o), x)
  {
    if ms != [] {
      var n := |ms| - 1;
      KeptOrGivenUp(ms[..n], o, x);
      assert Count(ms, x) == Count(ms[..n], x) + if ms[n].id == x then 1 else 0;
      CountSnoc(Kept(ms[..n], o), ms[n], x);
      CountSnoc(GivenUp(ms[..n], o), ms[n], x);
      hide Count;
    }
  }

  lemma {:induction false} BumpCount(ms: seq<Message>, scrub: bool, x: nat)
    ensures Count(BumpAll(ms, scrub), x) == Count(ms, x)
  {
    if ms != [] {
      var n := |ms| - 1;
      BumpCount(ms[..n], scrub, x);
      assert BumpAll(ms, scrub)[..n] == BumpAll(ms[..n], scrub);
    }
  }

  // Acknowledgements.

  datatype Acks = Acks(unacked: set<nat>, sent: seq<nat>)

  /** The broker tag is removed from a message once it is acknowledged, so acknowledging again does
      nothing. */
  function AckOne(a: Acks, m: Message): Acks {
    if m.id in a.unacked then Acks(a.unacked - {m.id}, a.sent + [m.id]) else a
  }

  function AckAll(a: Acks, ms: seq<Message>): Acks {
    if ms == [] then a else AckOne(AckAll(a, ms[..|ms| - 1]), ms[|ms| - 1])
  }

  // The state.

  /** `done`, `refused`, `gaveUp` and `dropped` are what left the flow: done or published, rejected,
      retried too often, put on no list. */
  datatype State = State(
    incoming: seq<Message>,
    ok: seq<Message>,
    rejected: seq<Message>,
    failed: seq<Message>,
    download: Pending,
    post: Pending,
    acks: Acks,
    done: seq<Message>,
    refused: seq<Message>,
    gaveUp: seq<Message>,
    dropped: seq<Message>)

  ghost predicate Idle(s: State) {
    s.incoming == [] && s.ok == [] && s.rejected == [] && s.failed == []
  }

  function IdSet(ms: seq<Message>): set<nat> {
    set m | m in ms :: m.id
  }

  ghost function Gathered(s: State, arrived: seq<Message>, qty: int, o: Options): State {
    var t := s.(acks := s.acks.(unacked := s.acks.unacked + IdSet(arrived)));
    if o.refilter && qty > 0 then
      var pulled := BumpAll(First(s.download, qty), true);
      t.(incoming := s.incoming + arrived + Kept(pulled, o), download := Rest(s.download, qty),
         gaveUp := s.gaveUp + GivenUp(pulled, o))
    else t.(incoming := s.incoming + arrived)
  }

  /** One entry made, and many. */
  ghost function Put(s: State, e: Entry): State {
    match e.place
    case Incoming => s.(incoming := s.incoming + [e.m])
    case Ok => s.(ok := s.ok + [e.m])
    case Rejected => s.(rejected := s.rejected + [e.m])
    case Failed => s.(failed := s.failed + [e.m])
    case Nowhere => s.(dropped := s.dropped + [e.m])
  }

  ghost function PutAll(s: State, es: seq<Entry>): State {
    s.(incoming := s.incoming + On(es, Incoming), ok := s.ok + On(es, Ok), rejected := s.rejected + On(es, Rejected),
       failed := s.failed + On(es, Failed), dropped := s.dropped + On(es, Nowhere))
  }

  lemma PutSnoc(s: State, es: seq<Entry>, e: Entry)
    ensures PutAll(s, es + [e]) == Put(PutAll(s, es), e)
  {
    OnSnoc(es, e, Incoming);
    OnSnoc(es, e, Ok);
    OnSnoc(es, e, Rejected);
    OnSnoc(es, e, Failed);
    OnSnoc(es, e, Nowhere);
    hide On;
  }

  lemma {:induction false} PutConcat(s: State, es: seq<Entry>, fs: seq<Entry>)
    ensures PutAll(s, es + fs) == PutAll(PutAll(s, es), fs)
    decreases |fs|
  {
    if fs == [] {
      assert es + fs == es;
    } else {
      var n := |fs| - 1;
      PutConcat(s, es, fs[..n]);
      PutSnoc(s, es + fs[..n], fs[n]);
      PutSnoc(PutAll(s, es), fs[..n], fs[n]);
      assert es + fs == es + fs[..n] + [fs[n]];
      assert fs == fs[..n] + [fs[n]];
      hide PutAll, Put;
    }
  }

  ghost function Filtered(s: State, o: Options, w: World): State {
    PutAll(s.(incoming := []), FilterAll(s.incoming, o, w))
  }

  /** Half a batch, rounded up, less what is already there. */
  function Room(batch: nat, n: nat): nat {
    if batch > 2 * n then (batch - 2 * n + 1) / 2 else 0
  }

  ghost function Accepted(s: State, o: Options): State {
    if o.refilter || Size(s.download) < 1 || Room(o.batch, |s.incoming|) == 0 then s
    else
      var qty := Room(o.batch, |s.incoming|);
      var pulled := BumpAll(First(s.download, qty), false);
      s.(incoming := s.incoming + Kept(pulled, o), download := Rest(s.download, qty),
         gaveUp := s.gaveUp + GivenUp(pulled, o))
  }

  /** At the end of the filter: everything decided is acknowledged, and rejections are let go. */
  ghost function Settled(s: State): State {
    var a := AckAll(AckAll(AckAll(s.acks, s.ok), s.rejected), s.failed);
    s.(acks := a, done := s.done + s.ok, ok := [], refused := s.refused + s.rejected, rejected := [])
  }

  ghost function Worked(s: State, o: Options, w: World): State
    requires CanWork(o)
  {
    var t := PutAll(s.(incoming := [], ok := if o.download then s.ok else []), WorkAll(s.incoming, o, w));
    t.(acks := AckAll(AckAll(AckAll(t.acks, t.ok), t.rejected), t.failed))
  }

  function PostRoom(batch: nat, n: nat): int {
    if batch > 2 then batch / 2 - n else if n < batch then batch - n else 0
  }

  ghost function RetriedWork(s: State, o: Options): State {
    var b := BumpAll(s.failed, false);
    s.(download := s.download.(waiting := s.download.waiting + Kept(b, o)),
       gaveUp := s.gaveUp + GivenUp(b, o), failed := [])
  }

  ghost function Refilled(s: State, o: Options): State {
    var qty := PostRoom(o.batch, |s.ok|);
    if Size(s.post) < 1 || qty <= 0 then s
    else s.(ok := s.ok + First(s.post, qty), post := Rest(s.post, qty))
  }

  ghost function Cleared(s: State): State {
    s.(acks := AckAll(AckAll(s.acks, s.rejected), s.failed), refused := s.refused + s.rejected, rejected := [])
  }

  ghost function Published(s: State, o: Options, w: World): State {
    if !o.publishing then s
    else
      PutAll(s.(ok := []), PublishAll(s.ok, w))
  }

  ghost function RetriedPost(s: State, o: Options): State {
    if !o.publishing then s
    else
      var b := BumpAll(s.failed, false);
      s.(post := s.post.(waiting := s.post.waiting + Kept(b, o)), gaveUp := s.gaveUp + GivenUp(b, o), failed := [])
  }

  ghost function Finished(s: State): State {
    s.(done := s.done + s.ok, ok := [], failed := [])
  }

  /** The answers of the outside world during one pass. */
  datatype Worlds = Worlds(filter: World, work: World, post: World)

  ghost function AfterFilter(s: State, o: Options, w: World): State {
    Settled(Accepted(Filtered(s, o, w), o))
  }

  ghost function AfterWork(s: State, o: Options, w: World): State
    requires CanWork(o)
  {
    Cleared(Refilled(RetriedWork(Worked(s, o, w), o), o))
  }

  ghost function AfterPost(s: State, o: Options, w: World): State {
    Finished(RetriedPost(Published(s, o, w), o))
  }

  ghost function Pass(s: State, arrived: seq<Message>, qty: int, o: Options, ws: Worlds): State
    requires CanWork(o)
  {
    AfterPost(AfterWork(AfterFilter(Gathered(s, arrived, qty, o), o, ws.filter), o, ws.work), o, ws.post)
  }
}
