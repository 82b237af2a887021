/** The retry queues of a flow are FIFO queues with generations: what the flow does with them are the
    actions of those queues, which both drivers are proved to carry out. */
module FlowQueues {
  import opened Sequences
  import opened Worklist
  import opened FlowState
  import opened FlowConservation
  import RetryMessage
  import Fifo = FifoQueue

  /** How a message of the flow is stored. */
  type Storing = Message -> RetryMessage.Message

  function Stored(ms: seq<Message>, e: Storing): (r: seq<RetryMessage.Message>)
    ensures |r| == |ms| && forall i | 0 <= i < |ms| :: r[i] == e(ms[i])
  {
    seq(|ms|, i requires 0 <= i < |ms| => e(ms[i]))
  }

  function Abs(q: Pending, e: Storing): Fifo.Queue {
    Fifo.Queue(Stored(q.ready, e), Stored(q.waiting, e))
  }

  /** The messages whose stored forms a housekeeping keeps. */
  function Outlive(ms: seq<Message>, e: Storing, now: int, ttl: Option<int>): seq<Message> {
    if ms == [] then []
    else
      var n := |ms| - 1;
      var init := Outlive(ms[..n], e, now, ttl);
      if RetryMessage.CacheKey(e(ms[n])) in RetryMessage.Keys(Stored(ms[..n], e))
         || RetryMessage.IsExpired(e(ms[n]), now, ttl)
      then init else init + [ms[n]]
  }

  lemma {:induction false} OutliveIs(ms: seq<Message>, e: Storing, now: int, ttl: Option<int>)
    ensures Stored(Outlive(ms, e, now, ttl), e) == RetryMessage.Survivors(Stored(ms, e), now, ttl)
  {
    if ms != [] {
      var n := |ms| - 1;
      OutliveIs(ms[..n], e, now, ttl);
      assert Stored(ms, e)[..n] == Stored(ms[..n], e);
      var init := Outlive(ms[..n], e, now, ttl);
      assert Stored(init + [ms[n]], e) == Stored(init, e) + [e(ms[n])];
      assert Stored(init, e) + [] == Stored(init, e);
      hide RetryMessage.CacheKey, RetryMessage.IsExpired, RetryMessage.Keys;
    }
  }

  lemma {:induction false} OutliveInOrder(ms: seq<Message>, e: Storing, now: int, ttl: Option<int>)
    ensures IsSubseq(Outlive(ms, e, now, ttl), ms)
  {
    if ms != [] {
      var n := |ms| - 1;
      OutliveInOrder(ms[..n], e, now, ttl);
      SubseqSnoc(Outlive(ms[..n], e, now, ttl), ms[..n], ms[n]);
      assert ms == ms[..n] + [ms[n]];
      hide RetryMessage.CacheKey, RetryMessage.IsExpired, RetryMessage.Keys;
    }
  }

  /** The message at `i` is `m`, the first of its key and unexpired. */
  ghost predicate Lives(ms: seq<Message>, e: Storing, now: int, ttl: Option<int>, m: Message, i: nat) {
    && i < |ms| && ms[i] == m && RetryMessage.IsFirstOfKey(Stored(ms, e), i)
    && !RetryMessage.IsExpired(e(m), now, ttl)
  }

  lemma LivesBefore(ms: seq<Message>, e: Storing, now: int, ttl: Option<int>, m: Message, n: nat, i: nat)
    requires i < n <= |ms|
    ensures Lives(ms[..n], e, now, ttl, m, i) <==> Lives(ms, e, now, ttl, m, i)
  {
    hide RetryMessage.CacheKey, RetryMessage.IsExpired;
    assert forall j | 0 <= j <= i :: Stored(ms[..n], e)[j] == Stored(ms, e)[j];
  }

  /** Which messages waiting a housekeeping of a driver keeps: the first of each key, unless expired. */
  lemma {:induction false} OutliveAre(ms: seq<Message>, e: Storing, now: int, ttl: Option<int>, m: Message)
    ensures m in Outlive(ms, e, now, ttl) <==> exists i: nat :: Lives(ms, e, now, ttl, m, i)
  {
    if ms != [] {
      var n := |ms| - 1;
      OutliveAre(ms[..n], e, now, ttl, m);
      OutliveLast(ms, e, now, ttl, m);
      hide Outlive;
      forall i: nat | i < n ensures Lives(ms[..n], e, now, ttl, m, i) <==> Lives(ms, e, now, ttl, m, i) {
        LivesBefore(ms, e, now, ttl, m, n, i);
      }
      assert forall i: nat | Lives(ms, e, now, ttl, m, i) :: i < n || i == n;
      hide Lives;
    }
  }

  lemma OutliveLast(ms: seq<Message>, e: Storing, now: int, ttl: Option<int>, m: Message)
    requires ms != []
    ensures var n := |ms| - 1;
            m in Outlive(ms, e, now, ttl) <==> m in Outlive(ms[..n], e, now, ttl) || Lives(ms, e, now, ttl, m, n)
  {
    var n := |ms| - 1;
    FirstOrKnown(Stored(ms, e), n);
    assert Stored(ms, e)[..n] == Stored(ms[..n], e);
    hide RetryMessage.CacheKey, RetryMessage.IsExpired, RetryMessage.IsFirstOfKey, RetryMessage.Keys;
  }

  lemma FirstOrKnown(ms: seq<RetryMessage.Message>, n: nat)
    requires n < |ms|
    ensures RetryMessage.CacheKey(ms[n]) in RetryMessage.Keys(ms[..n]) <==> !RetryMessage.IsFirstOfKey(ms, n)
  {
    hide RetryMessage.CacheKey;
    if j :| 0 <= j < n && RetryMessage.CacheKey(ms[j]) == RetryMessage.CacheKey(ms[n]) {
      assert ms[..n][j] in ms[..n];
    }
  }

  /** What a driver makes of a housekeeping: a queue that still has messages to hand out is left alone. */
  function Keeping(q: Pending, e: Storing, now: int, ttl: Option<int>): Option<seq<Message>> {
    if q.ready == [] then Some(Outlive(q.waiting, e, now, ttl)) else None
  }

  function ActionOf(q: Pending, now: int): Fifo.Action {
    if q.ready == [] then Fifo.Rotate(|q.waiting|, now) else Fifo.Stutter
  }

  /** Taking from a queue of the flow, adding to it and its housekeeping are a take, a put and a
      rotation of the FIFO queue. */
  lemma QueueActs(q: Pending, e: Storing, n: nat, ms: seq<Message>, now: int, ttl: Option<int>)
    ensures var k := if n < |q.ready| then n else |q.ready|;
            && Fifo.Enabled(Abs(q, e), Fifo.Take(k)) && Stored(First(q, n), e) == Abs(q, e).ready[..k]
            && Abs(Rest(q, n), e) == Fifo.Apply(Abs(q, e), Fifo.Take(k), ttl)
    ensures Abs(q.(waiting := q.waiting + ms), e) == Fifo.Apply(Abs(q, e), Fifo.Put(Stored(ms, e)), ttl)
    ensures Rotates(q, Keeping(q, e, now, ttl)) && Fifo.Enabled(Abs(q, e), ActionOf(q, now))
    ensures Abs(Rotated(q, Keeping(q, e, now, ttl)), e) == Fifo.Apply(Abs(q, e), ActionOf(q, now), ttl)
  {
    OutliveIs(q.waiting, e, now, ttl);
    OutliveInOrder(q.waiting, e, now, ttl);
    hide RetryMessage.Survivors, Outlive;
    assert Stored(q.waiting + ms, e) == Stored(q.waiting, e) + Stored(ms, e);
    assert Stored(q.waiting, e)[..|q.waiting|] == Stored(q.waiting, e);
    assert Stored(q.waiting, e)[|q.waiting|..] == [];
    assert Stored([], e) == [];
  }

  /** The housekeeping of a flow with either driver is a step of its runs, so what holds over runs holds
      with it; and what it removes are exactly duplicates and expired messages. */
  lemma DriverSteps(s: State, o: Options, e: Storing, now: int, later: int, ttl: Option<int>, m: Message)
    ensures var st := Housekeeping(Keeping(s.download, e, now, ttl), Keeping(s.post, e, later, ttl));
            && CanStep(s, st, o)
            && (m in s.download.waiting && m !in Next(s, st, o).download.ready + Next(s, st, o).download.waiting ==>
                  || RetryMessage.IsExpired(e(m), now, ttl)
                  || exists i, j :: 0 <= i < j < |s.download.waiting| && s.download.waiting[j] == m
                                 && RetryMessage.CacheKey(e(s.download.waiting[i])) == RetryMessage.CacheKey(e(m)))
  {
    QueueActs(s.download, e, 0, [], now, ttl);
    QueueActs(s.post, e, 0, [], later, ttl);
    hide RetryMessage.CacheKey, RetryMessage.IsExpired, Rotates, Abs, Outlive;
    if m in s.download.waiting && s.download.ready == [] {
      var ms := s.download.waiting;
      OutliveAre(ms, e, now, ttl, m);
      var j: nat :| j < |ms| && ms[j] == m;
      assert Lives(ms, e, now, ttl, m, j) ==> m in Outlive(ms, e, now, ttl);
      if !RetryMessage.IsExpired(e(m), now, ttl) && m !in Outlive(ms, e, now, ttl) {
        assert !RetryMessage.IsFirstOfKey(Stored(ms, e), j);
      }
    }
  }
}
