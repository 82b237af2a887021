/** What a pass of a flow does with every message: none is lost, none is made twice except by a
    rename, and each is acknowledged once. */
module FlowConservation {
  import opened Sequences
  import opened Worklist
  import opened FlowState

  /** How often the message `x` is in the flow or has left it. */
  ghost function Load(s: State, x: nat): nat {
    Listed(s, x) + Queued(s, x) + Left(s, x)
  }

  ghost function Listed(s: State, x: nat): nat {
    Count(s.incoming, x) + Count(s.ok, x) + Count(s.rejected, x) + Count(s.failed, x)
  }

  ghost function InQueue(q: Pending, x: nat): nat {
    Count(q.ready, x) + Count(q.waiting, x)
  }

  ghost function Queued(s: State, x: nat): nat {
    InQueue(s.download, x) + InQueue(s.post, x)
  }

  ghost function Left(s: State, x: nat): nat {
    Count(s.done, x) + Count(s.refused, x) + Count(s.gaveUp, x) + Count(s.dropped, x)
  }

  // Each stage.

  lemma PutAllLoad(s: State, es: seq<Entry>, x: nat)
    ensures Load(PutAll(s, es), x) == Load(s, x) + Entered(es, x)
  {
    CountConcat(s.incoming, On(es, Incoming), x);
    CountConcat(s.ok, On(es, Ok), x);
    CountConcat(s.rejected, On(es, Rejected), x);
    CountConcat(s.failed, On(es, Failed), x);
    CountConcat(s.dropped, On(es, Nowhere), x);
    Places(es, x);
    hide Count, On, Entered;
  }

  lemma {:induction false} FilterEntered(ms: seq<Message>, o: Options, w: World, x: nat)
    ensures Entered(FilterAll(ms, o, w), x) == Count(ms, x)
  {
    if ms != [] {
      var n := |ms| - 1;
      FilterEntered(ms[..n], o, w, x);
      EnteredSnoc(FilterAll(ms[..n], o, w), FilterOne(ms[n], o, w, n), x);
      FilterKeeps(ms[n], o, w, n);
      hide FilterOne, Entered;
    }
  }

  ghost predicate SameCounters(m: Message, n: Message) {
    m.id == n.id && m.retries == n.retries && m.tries == n.tries && m.posts == n.posts
  }

  /** The filter computes fields; it changes neither which message it is nor its counters. */
  lemma FilterKeeps(m: Message, o: Options, w: World, i: nat)
    ensures SameCounters(FilterOne(m, o, w, i).m, m)
  {
    hide ByMask, TooOld, FileTooOld, FileTooYoung;
    MasksKeep(m, o, w, i);
  }

  lemma MasksKeep(m: Message, o: Options, w: World, i: nat)
    ensures SameCounters(ByMask(m, o, w, i).m, m)
  {
    hide Take, MaskFrom, OldAccepted, IsRename;
    TakeKeeps(m, w, i);
    TakeKeeps(m.(renameUnlink := true), w, i);
  }

  lemma TakeKeeps(m: Message, w: World, i: nat)
    ensures SameCounters(Take(m, w, i).m, m)
  {
  }

  lemma EnteredSnoc(es: seq<Entry>, e: Entry, x: nat)
    ensures Entered(es + [e], x) == Entered(es, x) + if e.m.id == x then 1 else 0
  {
    assert (es + [e])[..|es|] == es;
  }

  lemma {:induction false} PublishEntered(ms: seq<Message>, w: World, x: nat)
    ensures Entered(PublishAll(ms, w), x) == Count(ms, x)
  {
    if ms != [] {
      var n := |ms| - 1;
      PublishEntered(ms[..n], w, x);
      EnteredSnoc(PublishAll(ms[..n], w), Posted(ms[n], w.publish(n)), x);
    }
  }

  /** The messages whose rename was done and which were downloaded as well. */
  ghost function Doubled(ms: seq<Message>, o: Options, w: World): seq<Message> {
    if ms == [] then []
    else
      var n := |ms| - 1;
      var init := Doubled(ms[..n], o, w);
      if o.download && !o.sender && Doubles(ms[n], o, w, n) then init + [ms[n]] else init
  }

  lemma LandingsEntered(m: Message, o: Options, w: World, i: nat, x: nat)
    ensures Entered(Entries(m, Landings(m, o, w, i)), x)
         == if m.id != x then 0 else if Doubles(m, o, w, i) then 2 else 1
  {
    LandsOnce(m, o, w, i);
    hide Landings;
    var ls := Landings(m, o, w, i);
    var es := Entries(m, ls);
    assert es[..|es| - 1] == Entries(m, ls[..|ls| - 1]);
    if |ls| == 2 {
      assert es == [] + [es[0]] + [es[1]];
      EnteredSnoc([], es[0], x);
      EnteredSnoc([] + [es[0]], es[1], x);
    } else {
      assert es == [] + [es[0]];
      EnteredSnoc([], es[0], x);
    }
  }

  lemma {:induction false} DownloadEntered(ms: seq<Message>, o: Options, w: World, x: nat)
    requires o.download && !o.sender
    ensures Entered(DownloadAll(ms, o, w), x) == Count(ms, x) + Count(Doubled(ms, o, w), x)
  {
    if ms != [] {
      var n := |ms| - 1;
      DownloadEntered(ms[..n], o, w, x);
      LandingsEntered(ms[n], o, w, n, x);
      EnteredConcat(DownloadAll(ms[..n], o, w), Entries(ms[n], Landings(ms[n], o, w, n)), x);
      CountSnoc(Doubled(ms[..n], o, w), ms[n], x);
      hide Landings, Entered, Doubles;
    }
  }

  lemma {:induction false} SendEntered(ms: seq<Message>, o: Options, w: World, x: nat)
    requires o.attempts >= 1
    ensures Entered(SendAll(ms, o, w), x) == Count(ms, x)
  {
    if ms != [] {
      var n := |ms| - 1;
      SendEntered(ms[..n], o, w, x);
      EnteredSnoc(SendAll(ms[..n], o, w), Landed(ms[n], Sending(ms[n], o, w, n)), x);
      hide Sending;
    }
  }

  lemma {:induction false} PassEntered(ms: seq<Message>, x: nat)
    ensures Entered(PassAll(ms), x) == Count(ms, x)
  {
    if ms != [] {
      var n := |ms| - 1;
      PassEntered(ms[..n], x);
      EnteredSnoc(PassAll(ms[..n]), Entry(Ok, ms[n]), x);
    }
  }

  lemma {:induction false} NoneDoubled(ms: seq<Message>, o: Options, w: World)
    requires !o.download || o.sender
    ensures Doubled(ms, o, w) == []
  {
    if ms != [] {
      NoneDoubled(ms[..|ms| - 1], o, w);
    }
  }

  lemma WorkEntered(ms: seq<Message>, o: Options, w: World, x: nat)
    requires CanWork(o)
    ensures Entered(WorkAll(ms, o, w), x) == Count(ms, x) + Count(Doubled(ms, o, w), x)
  {
    if !o.download {
      PassEntered(ms, x);
      NoneDoubled(ms, o, w);
    } else if o.sender {
      SendEntered(ms, o, w, x);
      NoneDoubled(ms, o, w);
    } else {
      DownloadEntered(ms, o, w, x);
    }
  }

  lemma FirstCount(q: Pending, n: nat, x: nat)
    ensures Count(First(q, n), x) + InQueue(Rest(q, n), x) == InQueue(q, x)
  {
    if n < |q.ready| {
      CountConcat(q.ready[..n], q.ready[n..], x);
      assert q.ready == q.ready[..n] + q.ready[n..];
    }
  }

  lemma CappedCount(ms: seq<Message>, scrub: bool, o: Options, x: nat)
    ensures Count(Kept(BumpAll(ms, scrub), o), x) + Count(GivenUp(BumpAll(ms, scrub), o), x) == Count(ms, x)
  {
    BumpCount(ms, scrub, x);
    KeptOrGivenUp(BumpAll(ms, scrub), o, x);
  }

  lemma GatheredLoad(s: State, arrived: seq<Message>, qty: int, o: Options, x: nat)
    ensures Load(Gathered(s, arrived, qty, o), x) == Load(s, x) + Count(arrived, x)
  {
    CountConcat(s.incoming, arrived, x);
    if o.refilter && qty > 0 {
      var pulled := First(s.download, qty);
      FirstCount(s.download, qty, x);
      CappedCount(pulled, true, o, x);
      CountConcat(s.incoming + arrived, Kept(BumpAll(pulled, true), o), x);
      CountConcat(s.gaveUp, GivenUp(BumpAll(pulled, true), o), x);
      hide Count, Kept, GivenUp;
    }
  }

  lemma FilteredLoad(s: State, o: Options, w: World, x: nat)
    ensures Load(Filtered(s, o, w), x) == Load(s, x)
  {
    FilterEntered(s.incoming, o, w, x);
    PutAllLoad(s.(incoming := []), FilterAll(s.incoming, o, w), x);
    hide PutAll, FilterAll, Entered;
  }

  lemma AcceptedLoad(s: State, o: Options, x: nat)
    ensures Load(Accepted(s, o), x) == Load(s, x)
  {
    var qty := Room(o.batch, |s.incoming|);
    if !(o.refilter || Size(s.download) < 1 || qty == 0) {
      var pulled := First(s.download, qty);
      FirstCount(s.download, qty, x);
      CappedCount(pulled, false, o, x);
      CountConcat(s.incoming, Kept(BumpAll(pulled, false), o), x);
      CountConcat(s.gaveUp, GivenUp(BumpAll(pulled, false), o), x);
      hide Count, Kept, GivenUp;
    }
  }

  lemma SettledLoad(s: State, x: nat)
    ensures Load(Settled(s), x) == Load(s, x)
  {
    CountConcat(s.done, s.ok, x);
    CountConcat(s.refused, s.rejected, x);
    hide AckAll;
  }

  lemma WorkedLoad(s: State, o: Options, w: World, x: nat)
    requires CanWork(o) && s.ok == []
    ensures Load(Worked(s, o, w), x) == Load(s, x) + Count(Doubled(s.incoming, o, w), x)
  {
    WorkEntered(s.incoming, o, w, x);
    PutAllLoad(s.(incoming := []), WorkAll(s.incoming, o, w), x);
    hide AckAll, PutAll, WorkAll, Entered;
  }

  lemma RetriedWorkLoad(s: State, o: Options, x: nat)
    ensures Load(RetriedWork(s, o), x) == Load(s, x)
  {
    CappedCount(s.failed, false, o, x);
    CountConcat(s.download.waiting, Kept(BumpAll(s.failed, false), o), x);
    CountConcat(s.gaveUp, GivenUp(BumpAll(s.failed, false), o), x);
    assert Count([], x) == 0;
    hide Count, Kept, GivenUp;
  }

  lemma RefilledLoad(s: State, o: Options, x: nat)
    ensures Load(Refilled(s, o), x) == Load(s, x)
  {
    var qty := PostRoom(o.batch, |s.ok|);
    if qty > 0 {
      FirstCount(s.post, qty, x);
      CountConcat(s.ok, First(s.post, qty), x);
      hide Count, First, Rest;
    }
  }

  lemma ClearedLoad(s: State, x: nat)
    ensures Load(Cleared(s), x) == Load(s, x)
  {
    CountConcat(s.refused, s.rejected, x);
    hide AckAll;
  }

  lemma PublishedLoad(s: State, o: Options, w: World, x: nat)
    ensures Load(Published(s, o, w), x) == Load(s, x)
  {
    PublishEntered(s.ok, w, x);
    PutAllLoad(s.(ok := []), PublishAll(s.ok, w), x);
    hide PutAll, PublishAll, Entered;
  }

  lemma RetriedPostLoad(s: State, o: Options, x: nat)
    ensures Load(RetriedPost(s, o), x) == Load(s, x)
  {
    CappedCount(s.failed, false, o, x);
    CountConcat(s.post.waiting, Kept(BumpAll(s.failed, false), o), x);
    CountConcat(s.gaveUp, GivenUp(BumpAll(s.failed, false), o), x);
    assert Count([], x) == 0;
    hide Count, Kept, GivenUp;
  }

  lemma FinishedLoad(s: State, x: nat)
    requires s.failed == []
    ensures Load(Finished(s), x) == Load(s, x)
  {
    CountConcat(s.done, s.ok, x);
  }

  // The pass.

  /** The messages that reach the work of a pass. */
  ghost function AtWork(s: State, arrived: seq<Message>, qty: int, o: Options, ws: Worlds): seq<Message> {
    AfterFilter(Gathered(s, arrived, qty, o), o, ws.filter).incoming
  }

  lemma FilterLoad(s: State, o: Options, w: World, x: nat)
    ensures Load(AfterFilter(s, o, w), x) == Load(s, x)
    ensures AfterFilter(s, o, w).ok == [] && AfterFilter(s, o, w).rejected == []
  {
    FilteredLoad(s, o, w, x);
    AcceptedLoad(Filtered(s, o, w), o, x);
    SettledLoad(Accepted(Filtered(s, o, w), o), x);
    hide Load, Filtered, Accepted;
  }

  lemma WorkLoad(s: State, o: Options, w: World, x: nat)
    requires CanWork(o) && s.ok == []
    ensures Load(AfterWork(s, o, w), x) == Load(s, x) + Count(Doubled(s.incoming, o, w), x)
    ensures AfterWork(s, o, w).failed == []
  {
    var t := Worked(s, o, w);
    WorkedLoad(s, o, w, x);
    RetriedWorkLoad(t, o, x);
    RefilledLoad(RetriedWork(t, o), o, x);
    ClearedLoad(Refilled(RetriedWork(t, o), o), x);
    hide Load, Worked;
  }

  lemma PostLoad(s: State, o: Options, w: World, x: nat)
    requires s.failed == []
    ensures Load(AfterPost(s, o, w), x) == Load(s, x)
  {
    PublishedLoad(s, o, w, x);
    RetriedPostLoad(Published(s, o, w), o, x);
    FinishedLoad(RetriedPost(Published(s, o, w), o), x);
    hide Load, PutAll;
  }

  /** A pass leaves every message that was in the flow, and every one that arrived, in exactly as
      many places as before; the only ones counted once more are those that were renamed and then
      downloaded too. */
  lemma PassConserves(s: State, arrived: seq<Message>, qty: int, o: Options, ws: Worlds, x: nat)
    requires CanWork(o)
    ensures Load(Pass(s, arrived, qty, o, ws), x)
         == Load(s, x) + Count(arrived, x) + Count(Doubled(AtWork(s, arrived, qty, o, ws), o, ws.work), x)
  {
    var g := Gathered(s, arrived, qty, o);
    var f := AfterFilter(g, o, ws.filter);
    GatheredLoad(s, arrived, qty, o, x);
    FilterLoad(g, o, ws.filter, x);
    WorkLoad(f, o, ws.work, x);
    PostLoad(AfterWork(f, o, ws.work), o, ws.post, x);
    hide Load, Gathered, AfterFilter, AfterWork, AfterPost;
  }

  lemma PassIdle(s: State, arrived: seq<Message>, qty: int, o: Options, ws: Worlds)
    requires CanWork(o)
    ensures Idle(Pass(s, arrived, qty, o, ws))
  {
    var f := AfterFilter(Gathered(s, arrived, qty, o), o, ws.filter);
    WorkIdle(f, o, ws.work);
    PostIdle(AfterWork(f, o, ws.work), o, ws.post);
    hide AfterWork, AfterFilter, AfterPost, Gathered;
  }

  lemma {:induction false} WorkPlaces(ms: seq<Message>, o: Options, w: World)
    requires CanWork(o)
    ensures On(WorkAll(ms, o, w), Incoming) == [] && On(WorkAll(ms, o, w), Nowhere) == []
  {
    if ms != [] {
      var n := |ms| - 1;
      WorkPlaces(ms[..n], o, w);
      if o.download && !o.sender {
        LandsOnce(ms[n], o, w, n);
        EntriesEnd(ms[n], Landings(ms[n], o, w, n));
        EndsOnly(DownloadAll(ms[..n], o, w), Entries(ms[n], Landings(ms[n], o, w, n)));
      } else if o.download {
        OnSnoc(SendAll(ms[..n], o, w), Landed(ms[n], Sending(ms[n], o, w, n)), Incoming);
        OnSnoc(SendAll(ms[..n], o, w), Landed(ms[n], Sending(ms[n], o, w, n)), Nowhere);
      } else {
        OnSnoc(PassAll(ms[..n]), Entry(Ok, ms[n]), Incoming);
        OnSnoc(PassAll(ms[..n]), Entry(Ok, ms[n]), Nowhere);
      }
      hide Landings, On;
    }
  }

  lemma EntriesEnd(m: Message, ls: seq<Landing>)
    requires forall l | l in ls :: IsEnd(l)
    ensures forall i | 0 <= i < |ls| :: Entries(m, ls)[i].place != Incoming && Entries(m, ls)[i].place != Nowhere
  {
    forall i | 0 <= i < |ls| ensures Entries(m, ls)[i].place != Incoming && Entries(m, ls)[i].place != Nowhere {
      assert IsEnd(ls[i]);
    }
  }

  lemma {:induction false} EndsOnly(es: seq<Entry>, fs: seq<Entry>)
    requires forall i | 0 <= i < |fs| :: fs[i].place != Incoming && fs[i].place != Nowhere
    ensures On(es + fs, Incoming) == On(es, Incoming) && On(es + fs, Nowhere) == On(es, Nowhere)
    decreases |fs|
  {
    if fs == [] {
      assert es + fs == es;
    } else {
      var n := |fs| - 1;
      EndsOnly(es, fs[..n]);
      assert (es + fs)[..|es + fs| - 1] == es + fs[..n];
    }
  }

  lemma WorkIdle(s: State, o: Options, w: World)
    requires CanWork(o)
    ensures var t := AfterWork(s, o, w); t.incoming == [] && t.rejected == [] && t.failed == []
    ensures AfterWork(s, o, w).dropped == s.dropped
  {
    WorkPlaces(s.incoming, o, w);
    hide On, WorkAll, AckAll;
  }

  lemma {:induction false} PublishPlaces(ms: seq<Message>, w: World)
    ensures On(PublishAll(ms, w), Incoming) == [] && On(PublishAll(ms, w), Nowhere) == []
    ensures On(PublishAll(ms, w), Rejected) == []
  {
    if ms != [] {
      var n := |ms| - 1;
      PublishPlaces(ms[..n], w);
      var e := Posted(ms[n], w.publish(n));
      OnSnoc(PublishAll(ms[..n], w), e, Incoming);
      OnSnoc(PublishAll(ms[..n], w), e, Nowhere);
      OnSnoc(PublishAll(ms[..n], w), e, Rejected);
      hide On;
    }
  }

  lemma PostIdle(s: State, o: Options, w: World)
    requires s.incoming == [] && s.rejected == []
    ensures Idle(AfterPost(s, o, w)) && AfterPost(s, o, w).dropped == s.dropped
    ensures AfterPost(s, o, w).acks == s.acks
  {
    PublishPlaces(s.ok, w);
    hide On, PublishAll, Kept, GivenUp;
  }

  // The room left to retries.

  lemma {:induction false} KeptFewer(ms: seq<Message>, o: Options)
    ensures |Kept(ms, o)| <= |ms|
  {
    if ms != [] {
      KeptFewer(ms[..|ms| - 1], o);
    }
  }

  /** A message that is to be filtered again bears no trace of having been in the flow: whatever the filter,
      the work and the counting have written into it is gone, and nothing else is. */
  lemma ScrubbedAfresh(m: Message, o: Options, w: World, i: nat, l: Landing)
    ensures Scrub(Bump(Landed(FilterOne(m, o, w, i).m, l).m)) == Scrub(m).(tries := m.tries + 1)
    ensures Scrub(m) == m <==> !m.renameUnlink && !m.newDir && !m.newFile && m.report == 0 && m.retries == 0
    ensures Scrub(Scrub(m)) == Scrub(m)
  {
    FilterVerdict(m, o, w, i);
    LandedIs(FilterOne(m, o, w, i).m, l);
    hide FilterOne, Landed;
  }

  /** Retries fill a batch up to half its size, rounded up, and no further; and where any are left
      on the queue they have been taken up to that. */
  lemma RetriesFillHalf(s: State, o: Options)
    requires !o.refilter
    ensures var t := Accepted(s, o);
            && (t.incoming != s.incoming ==> 2 * |t.incoming| <= o.batch + 1)
            && (t.download.ready != [] ==> 2 * (|s.incoming| + |s.download.ready| - |t.download.ready|) >= o.batch)
  {
    var qty := Room(o.batch, |s.incoming|);
    KeptFewer(BumpAll(First(s.download, qty), false), o);
    hide Kept, GivenUp, BumpAll;
  }

  /** Posts waiting fill the ok list up to half a batch, or to a whole one when it is at most 2. */
  lemma PostsFill(s: State, o: Options)
    ensures var t := Refilled(s, o);
            var most := if o.batch > 2 then o.batch / 2 else o.batch;
            && (t.ok != s.ok ==> |t.ok| <= most)
            && (t.post.ready != [] ==> |t.ok| >= most)
  {
  }

  // Acknowledgements.

  ghost function Sent(a: Acks, x: nat): nat {
    multiset(a.sent)[x]
  }

  lemma {:induction false} AckBalance(a: Acks, ms: seq<Message>, x: nat)
    ensures var b := AckAll(a, ms);
            && (x in b.unacked <==> x in a.unacked && Count(ms, x) == 0)
            && Sent(b, x) == Sent(a, x) + if x in a.unacked && Count(ms, x) > 0 then 1 else 0
  {
    if ms != [] {
      AckBalance(a, ms[..|ms| - 1], x);
    }
  }

  /** Acknowledging again changes nothing. */
  lemma {:induction false} AckAgain(a: Acks, ms: seq<Message>)
    requires forall x | x in a.unacked :: Count(ms, x) == 0
    ensures AckAll(a, ms) == a
  {
    if ms != [] {
      var n := |ms| - 1;
      assert Count(ms, ms[n].id) > 0;
      forall x | x in a.unacked ensures Count(ms[..n], x) == 0 {
        assert Count(ms, x) == 0;
      }
      AckAgain(a, ms[..n]);
    }
  }

  /** `x` is the message of one arrival: until it is acknowledged it is at most on the incoming list
      or on none, and once it is it is not among those put on none. */
  ghost predicate Tracked(s: State, x: nat, before: nat) {
    && (x in s.acks.unacked ==> Load(s, x) == Count(s.incoming, x) + Count(s.dropped, x))
    && (x !in s.acks.unacked ==> Count(s.dropped, x) == 0)
    && Sent(s.acks, x) + (if x in s.acks.unacked then 1 else 0) == before + 1
  }

  lemma IdSetCount(ms: seq<Message>, x: nat)
    ensures x in IdSet(ms) <==> Count(ms, x) > 0
    decreases |ms|
  {
    if ms != [] {
      var n := |ms| - 1;
      IdSetCount(ms[..n], x);
      assert forall m :: m in ms <==> m in ms[..n] || m == ms[n];
    }
  }

  lemma GatheredTracked(s: State, arrived: seq<Message>, qty: int, o: Options, x: nat)
    requires Count(arrived, x) == 1 && Load(s, x) == 0 && x !in s.acks.unacked
    ensures var g := Gathered(s, arrived, qty, o);
            && Tracked(g, x, Sent(s.acks, x)) && x in g.acks.unacked
            && Count(g.incoming, x) == Load(g, x) == 1 && g.ok == s.ok
  {
    GatheredLoad(s, arrived, qty, o, x);
    IdSetCount(arrived, x);
    CountConcat(s.incoming, arrived, x);
    if o.refilter && qty > 0 {
      var pulled := BumpAll(First(s.download, qty), true);
      CountConcat(s.incoming + arrived, Kept(pulled, o), x);
      hide Kept, GivenUp, Count;
    }
  }

  lemma FilterTracked(s: State, o: Options, w: World, x: nat, before: nat)
    requires Tracked(s, x, before) && x in s.acks.unacked && Load(s, x) == Count(s.incoming, x) == 1
    ensures Tracked(AfterFilter(s, o, w), x, before)
  {
    var f := Filtered(s, o, w);
    var t := Accepted(f, o);
    FilteredLoad(s, o, w, x);
    AcceptedLoad(f, o, x);
    FilteredOthers(s, o, w);
    AcceptedOthers(f, o, x);
    SettledTracked(t, x, before);
    hide Filtered, Accepted, Settled, Count, Tracked, Sent;
  }

  lemma FilteredOthers(s: State, o: Options, w: World)
    ensures var f := Filtered(s, o, w);
            && f.download == s.download && f.post == s.post && f.done == s.done && f.refused == s.refused
            && f.gaveUp == s.gaveUp && f.acks == s.acks
  {
  }

  lemma AcceptedOthers(s: State, o: Options, x: nat)
    requires Queued(s, x) == 0 && Count(s.gaveUp, x) == 0
    ensures var t := Accepted(s, o);
            Queued(t, x) == 0 && Count(t.gaveUp, x) == 0 && t.dropped == s.dropped
            && t.acks == s.acks && t.refused == s.refused && t.done == s.done
  {
    var qty := Room(o.batch, |s.incoming|);
    var pulled := First(s.download, qty);
    FirstCount(s.download, qty, x);
    CappedCount(pulled, false, o, x);
    CountConcat(s.gaveUp, GivenUp(BumpAll(pulled, false), o), x);
    hide Count, Kept, GivenUp, First, Rest;
  }

  lemma SettledTracked(s: State, x: nat, before: nat)
    requires x in s.acks.unacked && Load(s, x) == 1 && Sent(s.acks, x) == before
    requires Queued(s, x) + Left(s, x) == Count(s.dropped, x)
    ensures Tracked(Settled(s), x, before)
  {
    AckBalance(s.acks, s.ok, x);
    AckBalance(AckAll(s.acks, s.ok), s.rejected, x);
    AckBalance(AckAll(AckAll(s.acks, s.ok), s.rejected), s.failed, x);
    SettledLoad(s, x);
    assert Count([], x) == 0;
    hide AckAll, Count, Sent;
  }

  lemma {:induction false} DoubledCount(ms: seq<Message>, o: Options, w: World, x: nat)
    ensures Count(Doubled(ms, o, w), x) <= Count(ms, x)
  {
    if ms != [] {
      var n := |ms| - 1;
      DoubledCount(ms[..n], o, w, x);
      CountSnoc(Doubled(ms[..n], o, w), ms[n], x);
    }
  }

  lemma WorkedTracked(s: State, o: Options, w: World, x: nat, before: nat)
    requires CanWork(o) && s.ok == [] && Load(s, x) == 1 && Tracked(s, x, before)
    ensures var t := Worked(s, o, w);
            Tracked(t, x, before) && t.incoming == [] && (x in t.acks.unacked ==> Listed(t, x) == 0)
  {
    var es := WorkAll(s.incoming, o, w);
    var t := PutAll(s.(incoming := []), es);
    WorkPlaces(s.incoming, o, w);
    WorkEntered(s.incoming, o, w, x);
    DoubledCount(s.incoming, o, w, x);
    PutAllLoad(s.(incoming := []), es, x);
    AckBalance(s.acks, t.ok, x);
    AckBalance(AckAll(s.acks, t.ok), t.rejected, x);
    AckBalance(AckAll(AckAll(s.acks, t.ok), t.rejected), t.failed, x);
    assert t.incoming == [] && t.dropped == s.dropped && Count([], x) == 0;
    assert Count(t.ok, x) + Count(t.rejected, x) + Count(t.failed, x) >= Count(s.incoming, x);
    hide AckAll, WorkAll, PutAll, Count, Sent, Entered, Doubled;
  }

  lemma WorkTracked(s: State, o: Options, w: World, x: nat, before: nat)
    requires CanWork(o) && s.ok == [] && Load(s, x) == 1 && Tracked(s, x, before)
    ensures Tracked(AfterWork(s, o, w), x, before)
  {
    var t := Worked(s, o, w);
    var u := Refilled(RetriedWork(t, o), o);
    WorkedTracked(s, o, w, x, before);
    RetriedWorkLoad(t, o, x);
    RefilledLoad(RetriedWork(t, o), o, x);
    assert Count([], x) == 0;
    assert u.acks == t.acks && u.dropped == t.dropped && u.incoming == [] && u.rejected == t.rejected && u.failed == [];
    ClearedTracked(u, x, before);
    hide Worked, Refilled, RetriedWork, Load, Sent, Cleared;
  }

  lemma ClearedTracked(s: State, x: nat, before: nat)
    requires Tracked(s, x, before) && s.incoming == [] && s.failed == []
    ensures Tracked(Cleared(s), x, before)
  {
    ClearedLoad(s, x);
    AckBalance(s.acks, s.rejected, x);
    AckBalance(AckAll(s.acks, s.rejected), s.failed, x);
    assert Count([], x) == 0;
    hide AckAll, Count, Sent;
  }

  lemma DroppedLast(ms: seq<Message>, o: Options, w: World, x: nat)
    requires ms != []
    ensures Count(On(FilterAll(ms, o, w), Nowhere), x)
         == Count(On(FilterAll(ms[..|ms| - 1], o, w), Nowhere), x)
            + if FilterOne(ms[|ms| - 1], o, w, |ms| - 1).place == Nowhere && ms[|ms| - 1].id == x then 1 else 0
  {
    hide FilterOne;
    var n := |ms| - 1;
    var es := FilterAll(ms, o, w);
    FilterKeeps(ms[n], o, w, n);
    assert es[..|es| - 1] == FilterAll(ms[..n], o, w);
    OnCount(es, Nowhere, x);
  }

  lemma {:induction false} NoneDropped(ms: seq<Message>, o: Options, w: World, x: nat)
    requires Count(ms, x) == 0
    ensures Count(On(FilterAll(ms, o, w), Nowhere), x) == 0
  {
    if ms != [] {
      DroppedLast(ms, o, w, x);
      NoneDropped(ms[..|ms| - 1], o, w, x);
      hide FilterOne;
    }
  }

  lemma {:induction false} OneDropped(ms: seq<Message>, o: Options, w: World, x: nat, i: nat)
    requires i < |ms| && ms[i].id == x && Count(ms, x) == 1
    ensures Count(On(FilterAll(ms, o, w), Nowhere), x) == if FilterOne(ms[i], o, w, i).place == Nowhere then 1 else 0
  {
    hide FilterOne, On, FilterAll;
    var n := |ms| - 1;
    DroppedLast(ms, o, w, x);
    if i < n {
      CountAt(ms[..n], i);
      OneDropped(ms[..n], o, w, x, i);
    } else {
      NoneDropped(ms[..n], o, w, x);
    }
  }

  lemma {:induction false} CountAt(ms: seq<Message>, i: nat)
    requires i < |ms|
    ensures Count(ms, ms[i].id) > 0
  {
    if i < |ms| - 1 {
      CountAt(ms[..|ms| - 1], i);
    }
  }

  /** A message is dropped in a pass exactly when the guard of the dropping branch holds for it. */
  lemma DroppedInPass(s: State, arrived: seq<Message>, qty: int, o: Options, ws: Worlds, i: nat)
    requires CanWork(o) && Idle(s) && i < |arrived|
    requires Count(arrived, arrived[i].id) == 1 && Load(s, arrived[i].id) == 0
    ensures Count(Pass(s, arrived, qty, o, ws).dropped, arrived[i].id)
         == if Vanishes(arrived[i], o, ws.filter, i) then 1 else 0
  {
    hide Gathered, FilterOne, Vanishes, Count, Load, AfterWork, AfterPost, AfterFilter;
    var x := arrived[i].id;
    var g := Gathered(s, arrived, qty, o);
    var f := AfterFilter(g, o, ws.filter);
    GatheredFirst(s, arrived, qty, o, x);
    OneDropped(g.incoming, o, ws.filter, x, i);
    DroppedIff(arrived[i], o, ws.filter, i);
    FilterDrops(g, o, ws.filter, x);
    WorkIdle(f, o, ws.work);
    PostIdle(AfterWork(f, o, ws.work), o, ws.post);
  }

  lemma FilterDrops(s: State, o: Options, w: World, x: nat)
    ensures Count(AfterFilter(s, o, w).dropped, x)
         == Count(s.dropped, x) + Count(On(FilterAll(s.incoming, o, w), Nowhere), x)
    ensures AfterFilter(s, o, w).rejected == []
  {
    CountConcat(s.dropped, On(FilterAll(s.incoming, o, w), Nowhere), x);
    hide FilterAll, On, Count, AckAll, Kept, GivenUp;
  }

  lemma GatheredFirst(s: State, arrived: seq<Message>, qty: int, o: Options, x: nat)
    requires Idle(s) && Count(arrived, x) == 1 && Load(s, x) == 0
    ensures var g := Gathered(s, arrived, qty, o);
            arrived <= g.incoming && Count(g.incoming, x) == 1 && Count(g.dropped, x) == 0
  {
    GatheredLoad(s, arrived, qty, o, x);
    assert s.incoming + arrived == arrived;
    if o.refilter && qty > 0 {
      var pulled := First(s.download, qty);
      CountConcat(arrived, Kept(BumpAll(pulled, true), o), x);
    }
    hide Kept, GivenUp, Count;
  }

  /** A message that arrives in a pass, new to the flow, is acknowledged to the broker exactly once
      during it, however often it is put before the acknowledging code; the only exception is a
      message for which the guard of the filter's dropping branch holds, which is not acknowledged
      at all. */
  lemma AckedOnce(s: State, arrived: seq<Message>, qty: int, o: Options, ws: Worlds, i: nat)
    requires CanWork(o) && Idle(s) && i < |arrived|
    requires Count(arrived, arrived[i].id) == 1 && Load(s, arrived[i].id) == 0 && arrived[i].id !in s.acks.unacked
    ensures var x, t := arrived[i].id, Pass(s, arrived, qty, o, ws);
            && Sent(t.acks, x) == Sent(s.acks, x) + (if Vanishes(arrived[i], o, ws.filter, i) then 0 else 1)
            && (x in t.acks.unacked <==> Vanishes(arrived[i], o, ws.filter, i))
  {
    AckedUnlessDropped(s, arrived, qty, o, ws, arrived[i].id);
    DroppedInPass(s, arrived, qty, o, ws, i);
    hide Pass, Vanishes, Sent, Count, Load;
  }

  /** Such a message: it arrives, is put on no list, and the broker waits for its acknowledgement. */
  lemma MovedNeverAcked(s: State, qty: int, ws: Worlds)
    requires Idle(s) && Load(s, 0) == 0 && 0 !in s.acks.unacked && ws.filter == OLD_MATCHES
    ensures var t := Pass(s, [MOVED], qty, OLD_ONLY, ws);
            Count(t.dropped, 0) == 1 && Sent(t.acks, 0) == Sent(s.acks, 0) && 0 in t.acks.unacked
  {
    MovedVanishes();
    assert [MOVED][..0] == [];
    assert Count([MOVED], 0) == 1;
    hide Pass, Vanishes, Sent, Count, Load;
    AckedOnce(s, [MOVED], qty, OLD_ONLY, ws, 0);
    DroppedInPass(s, [MOVED], qty, OLD_ONLY, ws, 0);
  }

  lemma AckedUnlessDropped(s: State, arrived: seq<Message>, qty: int, o: Options, ws: Worlds, x: nat)
    requires CanWork(o) && s.ok == []
    requires Count(arrived, x) == 1 && Load(s, x) == 0 && x !in s.acks.unacked
    ensures var t := Pass(s, arrived, qty, o, ws);
            && Sent(t.acks, x) == Sent(s.acks, x) + (if Count(t.dropped, x) > 0 then 0 else 1)
            && (x in t.acks.unacked <==> Count(t.dropped, x) > 0)
  {
    var g := Gathered(s, arrived, qty, o);
    var f := AfterFilter(g, o, ws.filter);
    var k := AfterWork(f, o, ws.work);
    GatheredTracked(s, arrived, qty, o, x);
    FilterTracked(g, o, ws.filter, x, Sent(s.acks, x));
    FilterLoad(g, o, ws.filter, x);
    WorkTracked(f, o, ws.work, x, Sent(s.acks, x));
    WorkLoad(f, o, ws.work, x);
    WorkIdle(f, o, ws.work);
    PostIdle(k, o, ws.post);
    hide Gathered, AfterFilter, AfterWork, AfterPost, Sent, Count;
    PassConserves(s, arrived, qty, o, ws, x);
  }

  // Where the message ends.

  /** A message that arrives in a pass and is not both renamed and downloaded is afterwards in
      exactly one of the two retry queues, done or published, rejected, given up or dropped. */
  lemma EndsOnce(s: State, arrived: seq<Message>, qty: int, o: Options, ws: Worlds, x: nat)
    requires CanWork(o) && Count(arrived, x) == 1 && Load(s, x) == 0
    requires Count(Doubled(AtWork(s, arrived, qty, o, ws), o, ws.work), x) == 0
    ensures var t := Pass(s, arrived, qty, o, ws);
            && Listed(t, x) == 0
            && InQueue(t.download, x) + InQueue(t.post, x)
               + Count(t.done, x) + Count(t.refused, x) + Count(t.gaveUp, x) + Count(t.dropped, x) == 1
  {
    PassConserves(s, arrived, qty, o, ws, x);
    PassIdle(s, arrived, qty, o, ws);
    hide Pass;
  }

  lemma {:induction false} NoRename(ms: seq<Message>, o: Options, w: World)
    requires forall m | m in ms :: !IsRename(m)
    ensures Doubled(ms, o, w) == []
  {
    if ms != [] {
      NoRename(ms[..|ms| - 1], o, w);
    }
  }

  // Runs.

  /** A pass, or a housekeeping of the two queues. A queue that is not rotated is left as it is; one
      that is may lose messages, and what is kept of those waiting becomes available. */
  datatype Step =
    | PassStep(arrived: seq<Message>, qty: int, ws: Worlds)
    | Housekeeping(download: Option<seq<Message>>, post: Option<seq<Message>>)

  /** Only a queue with nothing left to take is rotated. */
  ghost predicate Rotates(q: Pending, kept: Option<seq<Message>>) {
    kept.Some? ==> q.ready == [] && IsSubseq(kept.value, q.waiting)
  }

  ghost function Rotated(q: Pending, kept: Option<seq<Message>>): Pending {
    if kept.Some? then Pending(kept.value, []) else q
  }

  ghost function LostFrom(q: Pending, kept: Option<seq<Message>>, x: nat): int {
    if kept.Some? then Count(q.waiting, x) - Count(kept.value, x) else 0
  }

  ghost predicate CanStep(s: State, st: Step, o: Options) {
    match st
    case PassStep(_, _, _) => CanWork(o)
    case Housekeeping(d, p) => Rotates(s.download, d) && Rotates(s.post, p)
  }

  ghost function Next(s: State, st: Step, o: Options): State
    requires CanStep(s, st, o)
  {
    match st
    case PassStep(arrived, qty, ws) => Pass(s, arrived, qty, o, ws)
    case Housekeeping(d, p) => s.(download := Rotated(s.download, d), post := Rotated(s.post, p))
  }

  /** What a step brings into the flow, and what it takes out of it. */
  ghost function Gained(s: State, st: Step, o: Options, x: nat): nat
    requires CanStep(s, st, o)
  {
    match st
    case PassStep(arrived, qty, ws) =>
      Count(arrived, x) + Count(Doubled(AtWork(s, arrived, qty, o, ws), o, ws.work), x)
    case Housekeeping(_, _) => 0
  }

  ghost function Lost(s: State, st: Step, x: nat): int {
    match st
    case PassStep(_, _, _) => 0
    case Housekeeping(d, p) =>
      LostFrom(s.download, d, x) + LostFrom(s.post, p, x)
  }

  lemma {:induction false} SubseqCount(a: seq<Message>, b: seq<Message>, x: nat)
    requires IsSubseq(a, b)
    ensures Count(a, x) <= Count(b, x)
    decreases |b|
  {
    if a != [] {
      var n, m := |a| - 1, |b| - 1;
      if a[n] == b[m] && IsSubseq(a[..n], b[..m]) {
        SubseqCount(a[..n], b[..m], x);
      } else {
        SubseqCount(a, b[..m], x);
      }
    }
  }

  lemma RotatedCount(q: Pending, kept: Option<seq<Message>>, x: nat)
    requires Rotates(q, kept)
    ensures InQueue(Rotated(q, kept), x) + LostFrom(q, kept, x) == InQueue(q, x) && LostFrom(q, kept, x) >= 0
  {
    if kept.Some? {
      SubseqCount(kept.value, q.waiting, x);
      assert Count([], x) == 0;
    }
  }

  ghost predicate CanRun(s: State, steps: seq<Step>, o: Options)
    decreases |steps|
  {
    steps == [] || (CanStep(s, steps[0], o) && CanRun(Next(s, steps[0], o), steps[1..], o))
  }

  ghost function Run(s: State, steps: seq<Step>, o: Options): State
    requires CanRun(s, steps, o)
    decreases |steps|
  {
    if steps == [] then s else Run(Next(s, steps[0], o), steps[1..], o)
  }

  lemma RunNil(s: State, o: Options)
    ensures CanRun(s, [], o) && Run(s, [], o) == s
  {
  }

  lemma RunCons(s: State, st: Step, steps: seq<Step>, o: Options)
    ensures CanRun(s, [st] + steps, o) <==> CanStep(s, st, o) && CanRun(Next(s, st, o), steps, o)
    ensures CanRun(s, [st] + steps, o) ==> Run(s, [st] + steps, o) == Run(Next(s, st, o), steps, o)
  {
    hide CanStep, Next;
    assert ([st] + steps)[0] == st && ([st] + steps)[1..] == steps;
  }

  lemma TwoSteps(s: State, st: Step, st': Step, o: Options)
    requires CanStep(s, st, o) && CanStep(Next(s, st, o), st', o)
    ensures CanRun(s, [st, st'], o) && Run(s, [st, st'], o) == Next(Next(s, st, o), st', o)
  {
    hide *;
    RunNil(Next(Next(s, st, o), st', o), o);
    RunCons(Next(s, st, o), st', [], o);
    RunCons(s, st, [st'], o);
    assert [st'] + [] == [st'] && [st] + [st'] == [st, st'];
  }

  /** One run after another is a run. */
  lemma {:induction false} RunConcat(s: State, a: seq<Step>, b: seq<Step>, o: Options)
    requires CanRun(s, a, o) && CanRun(Run(s, a, o), b, o)
    ensures CanRun(s, a + b, o) && Run(s, a + b, o) == Run(Run(s, a, o), b, o)
    decreases |a|
  {
    hide *;
    if a == [] {
      RunNil(s, o);
      assert a + b == b;
    } else {
      assert a == [a[0]] + a[1..];
      RunCons(s, a[0], a[1..], o);
      RunConcat(Next(s, a[0], o), a[1..], b, o);
      RunCons(s, a[0], a[1..] + b, o);
      assert a + b == [a[0]] + (a[1..] + b);
    }
  }

  ghost function AllGained(s: State, steps: seq<Step>, o: Options, x: nat): nat
    requires CanRun(s, steps, o)
    decreases |steps|
  {
    if steps == [] then 0
    else Gained(s, steps[0], o, x) + AllGained(Next(s, steps[0], o), steps[1..], o, x)
  }

  ghost function AllLost(s: State, steps: seq<Step>, o: Options, x: nat): int
    requires CanRun(s, steps, o)
    decreases |steps|
  {
    if steps == [] then 0 else Lost(s, steps[0], x) + AllLost(Next(s, steps[0], o), steps[1..], o, x)
  }

  lemma StepConserves(s: State, st: Step, o: Options, x: nat)
    requires CanStep(s, st, o)
    ensures Load(Next(s, st, o), x) + Lost(s, st, x) == Load(s, x) + Gained(s, st, o, x)
    ensures Lost(s, st, x) >= 0
  {
    match st
    case PassStep(arrived, qty, ws) =>
      PassConserves(s, arrived, qty, o, ws, x);
      hide Pass, Load;
    case Housekeeping(d, p) =>
      RotatedCount(s.download, d, x);
      RotatedCount(s.post, p, x);
      hide Count, Rotated, LostFrom, InQueue;
  }

  /** Over any run of passes and housekeepings: what is in the flow or has left it, and what the
      housekeepings took out as old or repeated, is what was there and what came in. */
  lemma {:induction false} RunConserves(s: State, steps: seq<Step>, o: Options, x: nat)
    requires CanRun(s, steps, o)
    ensures Load(Run(s, steps, o), x) + AllLost(s, steps, o, x) == Load(s, x) + AllGained(s, steps, o, x)
    ensures AllLost(s, steps, o, x) >= 0
    decreases |steps|
  {
    if steps != [] {
      StepConserves(s, steps[0], o, x);
      RunConserves(Next(s, steps[0], o), steps[1..], o, x);
      hide Load, Lost, Gained, Next;
    }
  }

  ghost function Arrivals(steps: seq<Step>, x: nat): nat {
    if steps == [] then 0
    else (if steps[0].PassStep? then Count(steps[0].arrived, x) else 0) + Arrivals(steps[1..], x)
  }

  /** How often `x` was, or is still to be, acknowledged. */
  ghost function Owed(a: Acks, x: nat): nat {
    Sent(a, x) + if x in a.unacked then 1 else 0
  }

  lemma AckOwed(a: Acks, ms: seq<Message>, x: nat)
    ensures Owed(AckAll(a, ms), x) == Owed(a, x)
  {
    AckBalance(a, ms, x);
  }

  lemma FilterOwed(s: State, o: Options, w: World, x: nat)
    ensures Owed(AfterFilter(s, o, w).acks, x) == Owed(s.acks, x)
  {
    var t := Accepted(Filtered(s, o, w), o);
    assert t.acks == s.acks;
    AckOwed(t.acks, t.ok, x);
    AckOwed(AckAll(t.acks, t.ok), t.rejected, x);
    AckOwed(AckAll(AckAll(t.acks, t.ok), t.rejected), t.failed, x);
    hide Owed, Filtered, Accepted, AckAll;
  }

  lemma WorkOwed(s: State, o: Options, w: World, x: nat)
    requires CanWork(o)
    ensures Owed(AfterWork(s, o, w).acks, x) == Owed(s.acks, x)
  {
    var t := PutAll(s.(incoming := [], ok := if o.download then s.ok else []), WorkAll(s.incoming, o, w));
    AckOwed(t.acks, t.ok, x);
    AckOwed(AckAll(t.acks, t.ok), t.rejected, x);
    AckOwed(AckAll(AckAll(t.acks, t.ok), t.rejected), t.failed, x);
    var u := Refilled(RetriedWork(Worked(s, o, w), o), o);
    assert u.acks == Worked(s, o, w).acks;
    AckOwed(u.acks, u.rejected, x);
    AckOwed(AckAll(u.acks, u.rejected), u.failed, x);
    hide Owed, Refilled, RetriedWork, AckAll, WorkAll;
  }

  lemma StepOwed(s: State, st: Step, o: Options, x: nat)
    requires CanStep(s, st, o)
    ensures Owed(Next(s, st, o).acks, x)
         <= Owed(s.acks, x) + if st.PassStep? then Count(st.arrived, x) else 0
  {
    if st.PassStep? {
      var g := Gathered(s, st.arrived, st.qty, o);
      var f := AfterFilter(g, o, st.ws.filter);
      IdSetCount(st.arrived, x);
      assert g.acks == s.acks.(unacked := s.acks.unacked + IdSet(st.arrived));
      FilterOwed(g, o, st.ws.filter, x);
      WorkOwed(f, o, st.ws.work, x);
      assert AfterPost(AfterWork(f, o, st.ws.work), o, st.ws.post).acks == AfterWork(f, o, st.ws.work).acks;
      hide Gathered, AfterFilter, AfterWork, AfterPost, Count;
    }
  }

  /** Over any run, a message is acknowledged at most as often as it arrived from the broker. */
  lemma {:induction false} RunAcked(s: State, steps: seq<Step>, o: Options, x: nat)
    requires CanRun(s, steps, o)
    ensures Owed(Run(s, steps, o).acks, x) <= Owed(s.acks, x) + Arrivals(steps, x)
    decreases |steps|
  {
    if steps != [] {
      StepOwed(s, steps[0], o, x);
      RunAcked(Next(s, steps[0], o), steps[1..], o, x);
      hide Owed, Next;
    }
  }
}
