/** Where each message of a pass ends: what the filter, the work and the publication say of it, and the
    retry limit, decide it, whatever else the pass works on. */
module FlowEnds {
  import opened Sequences
  import opened Worklist
  import opened FlowState
  import opened FlowConservation

  // One message among others.

  /** One entry for each message, in the same order. */
  ghost predicate OneEach(es: seq<Entry>, ms: seq<Message>) {
    |es| == |ms| && forall k | 0 <= k < |ms| :: es[k].m.id == ms[k].id
  }

  lemma {:induction false} NoneOn(es: seq<Entry>, ms: seq<Message>, x: nat, p: Place)
    requires OneEach(es, ms) && Count(ms, x) == 0
    ensures Count(On(es, p), x) == 0
    decreases |es|
  {
    if es != [] {
      var n := |es| - 1;
      NoneOn(es[..n], ms[..n], x, p);
      OnCount(es, p, x);
      hide On;
    }
  }

  /** The only message `x` is on the list `p` exactly if its entry is. */
  lemma {:induction false} PlacedAt(es: seq<Entry>, ms: seq<Message>, x: nat, i: nat, p: Place)
    requires OneEach(es, ms) && i < |ms| && ms[i].id == x && Count(ms, x) == 1
    ensures Count(On(es, p), x) == if es[i].place == p then 1 else 0
    decreases |es|
  {
    var n := |es| - 1;
    OnCount(es, p, x);
    if i < n {
      CountAt(ms[..n], i);
      PlacedAt(es[..n], ms[..n], x, i, p);
    } else {
      NoneOn(es[..n], ms[..n], x, p);
    }
    hide On;
  }

  lemma {:induction false} FilterEach(ms: seq<Message>, o: Options, w: World)
    ensures OneEach(FilterAll(ms, o, w), ms)
    ensures forall k | 0 <= k < |ms| :: FilterAll(ms, o, w)[k] == FilterOne(ms[k], o, w, k)
  {
    hide FilterOne;
    if ms != [] {
      var n := |ms| - 1;
      FilterEach(ms[..n], o, w);
      FilterKeeps(ms[n], o, w, n);
    }
  }

  lemma {:induction false} SendEach(ms: seq<Message>, o: Options, w: World)
    requires o.attempts >= 1
    ensures OneEach(SendAll(ms, o, w), ms)
    ensures forall k | 0 <= k < |ms| :: SendAll(ms, o, w)[k] == Landed(ms[k], Sending(ms[k], o, w, k))
  {
    hide Sending;
    if ms != [] {
      SendEach(ms[..|ms| - 1], o, w);
    }
  }

  lemma {:induction false} PassEach(ms: seq<Message>)
    ensures OneEach(PassAll(ms), ms)
    ensures forall k | 0 <= k < |ms| :: PassAll(ms)[k].place == Ok && PassAll(ms)[k].m == ms[k]
  {
    if ms != [] {
      PassEach(ms[..|ms| - 1]);
    }
  }

  lemma {:induction false} PublishEach(ms: seq<Message>, w: World)
    ensures OneEach(PublishAll(ms, w), ms)
    ensures forall k | 0 <= k < |ms| ::
              PublishAll(ms, w)[k].place == (if w.publish(k) then Ok else Failed)
              && PublishAll(ms, w)[k].m.retries == ms[k].retries
  {
    if ms != [] {
      PublishEach(ms[..|ms| - 1], w);
    }
  }

  lemma NoDownload(ms: seq<Message>, o: Options, w: World, x: nat, p: Place)
    requires o.download && !o.sender && Count(ms, x) == 0
    ensures Count(On(DownloadAll(ms, o, w), p), x) == 0
  {
    DownloadEntered(ms, o, w, x);
    DoubledCount(ms, o, w, x);
    Places(DownloadAll(ms, o, w), x);
    hide DownloadAll, On;
  }

  lemma {:induction false} OnTwo(es: seq<Entry>, fs: seq<Entry>, p: Place)
    ensures On(es + fs, p) == On(es, p) + On(fs, p)
    decreases |fs|
  {
    if fs == [] {
      assert es + fs == es;
      assert On(es, p) + [] == On(es, p);
    } else {
      var n := |fs| - 1;
      OnTwo(es, fs[..n], p);
      OnSnoc(es + fs[..n], fs[n], p);
      OnSnoc(fs[..n], fs[n], p);
      assert es + fs == (es + fs[..n]) + [fs[n]] && fs == fs[..n] + [fs[n]];
      hide On;
    }
  }

  lemma SingleOn(m: Message, l: Landing, p: Place)
    ensures On(Entries(m, [l]), p) == if l.place == p then [Landed(m, l).m] else []
  {
    var es := Entries(m, [l]);
    assert es == [Landed(m, l)] && es[..0] == [];
  }

  lemma DownloadLast(ms: seq<Message>, o: Options, w: World, x: nat, p: Place)
    requires o.download && !o.sender && ms != []
    ensures var n := |ms| - 1;
            Count(On(DownloadAll(ms, o, w), p), x)
            == Count(On(DownloadAll(ms[..n], o, w), p), x) + Count(On(Entries(ms[n], Landings(ms[n], o, w, n)), p), x)
  {
    var n := |ms| - 1;
    var es, fs := DownloadAll(ms[..n], o, w), Entries(ms[n], Landings(ms[n], o, w, n));
    hide Landings, On, Entries, Count;
    OnTwo(es, fs, p);
    CountConcat(On(es, p), On(fs, p), x);
  }

  lemma OthersOn(m: Message, o: Options, w: World, n: nat, x: nat, p: Place)
    requires m.id != x
    ensures Count(On(Entries(m, Landings(m, o, w, n)), p), x) == 0
  {
    hide Landings, On, Count, Entered;
    LandingsEntered(m, o, w, n, x);
    Places(Entries(m, Landings(m, o, w, n)), x);
  }

  lemma {:induction false} DownloadedAt(ms: seq<Message>, o: Options, w: World, x: nat, j: nat, l: Landing, p: Place)
    requires o.download && !o.sender && j < |ms| && ms[j].id == x && Count(ms, x) == 1
    requires Landings(ms[j], o, w, j) == [l]
    ensures Count(On(DownloadAll(ms, o, w), p), x) == if l.place == p then 1 else 0
    decreases |ms|
  {
    hide Landings, On, DownloadAll;
    var n := |ms| - 1;
    DownloadLast(ms, o, w, x, p);
    if j < n {
      CountAt(ms[..n], j);
      DownloadedAt(ms[..n], o, w, x, j, l, p);
      OthersOn(ms[n], o, w, n, x, p);
    } else {
      NoDownload(ms[..n], o, w, x, p);
      SingleOn(ms[n], l, p);
      One(Landed(ms[n], l).m, x);
    }
  }

  lemma One(m: Message, x: nat)
    ensures Count([m], x) == if m.id == x then 1 else 0
  {
    assert [m][..0] == [];
  }

  /** What the work comes to for the message at `j`, if it comes to one entry. */
  ghost function WorkVerdict(m: Message, o: Options, w: World, j: nat): Option<Place>
    requires CanWork(o)
  {
    if !o.download then Some(Ok)
    else if o.sender then Some(Sending(m, o, w, j).place)
    else if |Landings(m, o, w, j)| == 1 then Some(Landings(m, o, w, j)[0].place)
    else None
  }

  lemma WorkedAt(ms: seq<Message>, o: Options, w: World, x: nat, j: nat, p: Place)
    requires CanWork(o) && j < |ms| && ms[j].id == x && Count(ms, x) == 1 && WorkVerdict(ms[j], o, w, j).Some?
    ensures Count(On(WorkAll(ms, o, w), p), x) == if WorkVerdict(ms[j], o, w, j) == Some(p) then 1 else 0
  {
    hide Landings, Sending, On, Count;
    if !o.download {
      PassEach(ms);
      PlacedAt(PassAll(ms), ms, x, j, p);
    } else if o.sender {
      SendEach(ms, o, w);
      PlacedAt(SendAll(ms, o, w), ms, x, j, p);
    } else {
      var ls := Landings(ms[j], o, w, j);
      assert ls == [ls[0]];
      DownloadedAt(ms, o, w, x, j, ls[0], p);
    }
  }

  // The retry counter of a message that fails.

  ghost predicate Counter(ms: seq<Message>, x: nat, r: nat) {
    forall k | 0 <= k < |ms| :: ms[k].id == x ==> ms[k].retries == r
  }

  ghost predicate EntryCounter(es: seq<Entry>, x: nat, r: nat) {
    forall k | 0 <= k < |es| :: es[k].m.id == x ==> es[k].m.retries == r
  }

  lemma {:induction false} OnCounter(es: seq<Entry>, p: Place, x: nat, r: nat)
    requires EntryCounter(es, x, r)
    ensures Counter(On(es, p), x, r)
  {
    if es != [] {
      OnCounter(es[..|es| - 1], p, x, r);
    }
  }

  lemma {:induction false} WorkCounter(ms: seq<Message>, o: Options, w: World, x: nat, r: nat)
    requires CanWork(o) && Counter(ms, x, r)
    ensures EntryCounter(WorkAll(ms, o, w), x, r)
  {
    if ms != [] {
      var k := |ms| - 1;
      WorkCounter(ms[..k], o, w, x, r);
      hide Landings, Sending;
    }
  }

  /** The limit ends a message that fails once more. */
  predicate LastTry(o: Options, r: nat) {
    0 < o.retryCountMax <= r
  }

  /** What is counted once more is kept or given up as the limit says. */
  lemma {:induction false} FailsOnce(ms: seq<Message>, o: Options, x: nat, r: nat)
    requires Counter(ms, x, r)
    ensures Count(Kept(BumpAll(ms, false), o), x) == if LastTry(o, r) then 0 else Count(ms, x)
    ensures Count(GivenUp(BumpAll(ms, false), o), x) == if LastTry(o, r) then Count(ms, x) else 0
  {
    if ms != [] {
      var n := |ms| - 1;
      FailsOnce(ms[..n], o, x, r);
      var b := BumpAll(ms, false);
      assert b[..n] == BumpAll(ms[..n], false);
      CountSnoc(Kept(b[..n], o), b[n], x);
      CountSnoc(GivenUp(b[..n], o), b[n], x);
    }
  }

  // The stages of a pass.

  /** After the filter: refused, put off, on no list, or at the work. */
  lemma {:induction false} FilterEnds(s: State, arrived: seq<Message>, qty: int, o: Options, w: World, i: nat)
    requires Idle(s) && i < |arrived| && Count(arrived, arrived[i].id) == 1 && Load(s, arrived[i].id) == 0
    ensures var x, f := arrived[i].id, AfterFilter(Gathered(s, arrived, qty, o), o, w);
            var p := FilterOne(arrived[i], o, w, i).place;
            && Count(f.refused, x) == (if p == Rejected then 1 else 0)
            && Count(f.failed, x) == (if p == Failed then 1 else 0)
            && Count(f.dropped, x) == (if p == Nowhere then 1 else 0)
            && Count(f.incoming, x) == (if p == Incoming then 1 else 0)
            && Count(f.done, x) == 0 && Queued(f, x) == 0 && Count(f.gaveUp, x) == 0
            && f.ok == [] && f.rejected == []
  {
    hide Gathered, FilterOne, FilterAll, On, Count, AfterFilter, OneEach, Filtered, Accepted, FlowState.Settled, AckAll;
    hide Queued;
    var x, g := arrived[i].id, Gathered(s, arrived, qty, o);
    GatheredFirst(s, arrived, qty, o, x);
    GatheredLoad(s, arrived, qty, o, x);
    GatheredLists(s, arrived, qty, o);
    FilterEach(g.incoming, o, w);
    var es := FilterAll(g.incoming, o, w);
    PlacedAt(es, g.incoming, x, i, Rejected);
    PlacedAt(es, g.incoming, x, i, Failed);
    PlacedAt(es, g.incoming, x, i, Nowhere);
    PlacedAt(es, g.incoming, x, i, Ok);
    AcceptedIff(arrived[i], o, w, i);
    FilterCounts(g, o, w, x);
    FilterLoad(g, o, w, x);
    LoadIs(AfterFilter(g, o, w), x);
  }

  lemma GatheredLists(s: State, arrived: seq<Message>, qty: int, o: Options)
    ensures var g := Gathered(s, arrived, qty, o); g.ok == s.ok && g.rejected == s.rejected && g.failed == s.failed
  {
    hide Kept, GivenUp, BumpAll, First, Rest, IdSet;
  }

  lemma LoadIs(s: State, x: nat)
    ensures Load(s, x) == Count(s.incoming, x) + Count(s.ok, x) + Count(s.rejected, x) + Count(s.failed, x)
                          + Queued(s, x) + Count(s.done, x) + Count(s.refused, x) + Count(s.gaveUp, x)
                          + Count(s.dropped, x)
  {
  }

  lemma FilterCounts(g: State, o: Options, w: World, x: nat)
    requires g.rejected == [] && g.failed == [] && g.ok == [] && Load(g, x) == Count(g.incoming, x) == 1
    ensures var f, es := AfterFilter(g, o, w), FilterAll(g.incoming, o, w);
            && Count(f.refused, x) == Count(On(es, Rejected), x)
            && Count(f.failed, x) == Count(On(es, Failed), x)
            && Count(f.dropped, x) == Count(On(es, Nowhere), x)
            && Count(f.done, x) == Count(On(es, Ok), x)
            && Queued(f, x) == 0 && Count(f.gaveUp, x) == 0
  {
    var es := FilterAll(g.incoming, o, w);
    var t := Filtered(g, o, w);
    CountConcat(g.dropped, On(es, Nowhere), x);
    CountConcat(g.refused, On(es, Rejected), x);
    CountConcat(g.done, On(es, Ok), x);
    CountConcat(g.failed, On(es, Failed), x);
    assert [] + On(es, Rejected) == On(es, Rejected) && [] + On(es, Ok) == On(es, Ok);
    FilteredOthers(g, o, w);
    AcceptedOthers(t, o, x);
    AcceptedKeeps(t, o);
    hide FilterAll, On, Count, Kept, GivenUp, BumpAll, AckAll, First, Rest;
  }

  lemma AcceptedKeeps(s: State, o: Options)
    ensures var t := Accepted(s, o); t.ok == s.ok && t.rejected == s.rejected && t.failed == s.failed
  {
    hide Kept, GivenUp, BumpAll, First, Rest;
  }

  /** After the work: what was at the work is refused, put off or on the ok list, as its verdict says; what
      was put off, there or before, is queued or given up, as the limit says. */
  lemma {:induction false} WorkEnds(s: State, o: Options, w: World, x: nat, j: nat, r: nat)
    requires CanWork(o) && s.ok == [] && s.rejected == [] && Load(s, x) == 1
    requires Counter(s.incoming, x, r) && Counter(s.failed, x, r) && Queued(s, x) == 0 && Count(s.gaveUp, x) == 0
    requires Count(s.incoming, x) == 1 ==> j < |s.incoming| && s.incoming[j].id == x
    requires Count(s.incoming, x) == 1 ==> WorkVerdict(s.incoming[j], o, w, j).Some?
    ensures var v := if Count(s.incoming, x) == 1 then WorkVerdict(s.incoming[j], o, w, j) else None;
            var t, failed := AfterWork(s, o, w), Count(s.failed, x) == 1 || v == Some(Failed);
            && Count(t.refused, x) == Count(s.refused, x) + (if v == Some(Rejected) then 1 else 0)
            && InQueue(t.download, x) == (if failed && !LastTry(o, r) then 1 else 0)
            && Count(t.gaveUp, x) == (if failed && LastTry(o, r) then 1 else 0)
            && Count(t.ok, x) == (if v == Some(Ok) then 1 else 0)
            && InQueue(t.post, x) == 0 && Count(t.done, x) == Count(s.done, x) && Counter(t.ok, x, r)
            && Count(t.dropped, x) == Count(s.dropped, x)
  {
    hide Landings, Sending, On, Count, WorkAll, Worked, RetriedWork, Refilled, Cleared, WorkVerdict, Counter;
    var t := Worked(s, o, w);
    LoadIs(s, x);
    WorkedCounts(s, o, w, x, j, r);
    RetriedCounts(t, o, x, r);
    var u := RetriedWork(t, o);
    RefilledCounts(u, o, x, r);
    ClearedCounts(Refilled(u, o), x);
  }

  lemma {:induction false} WorkedCounts(s: State, o: Options, w: World, x: nat, j: nat, r: nat)
    requires CanWork(o) && s.ok == [] && s.rejected == [] && Count(s.incoming, x) <= 1
    requires Counter(s.incoming, x, r) && Counter(s.failed, x, r)
    requires Count(s.incoming, x) == 1 ==> j < |s.incoming| && s.incoming[j].id == x
    requires Count(s.incoming, x) == 1 ==> WorkVerdict(s.incoming[j], o, w, j).Some?
    ensures var v := if Count(s.incoming, x) == 1 then WorkVerdict(s.incoming[j], o, w, j) else None;
            var t := Worked(s, o, w);
            && Count(t.rejected, x) == (if v == Some(Rejected) then 1 else 0)
            && Count(t.failed, x) == Count(s.failed, x) + (if v == Some(Failed) then 1 else 0)
            && Count(t.ok, x) == (if v == Some(Ok) then 1 else 0)
            && Counter(t.failed, x, r) && Counter(t.ok, x, r)
            && t.download == s.download && t.post == s.post && t.done == s.done && t.refused == s.refused
            && t.gaveUp == s.gaveUp && t.dropped == s.dropped
  {
    hide Landings, Sending, On, Count, WorkAll, AckAll, WorkVerdict;
    var es := WorkAll(s.incoming, o, w);
    WorkPlaces(s.incoming, o, w);
    WorkCounter(s.incoming, o, w, x, r);
    OnCounter(es, Failed, x, r);
    OnCounter(es, Ok, x, r);
    CountConcat(s.failed, On(es, Failed), x);
    if Count(s.incoming, x) == 1 {
      WorkedAt(s.incoming, o, w, x, j, Rejected);
      WorkedAt(s.incoming, o, w, x, j, Failed);
      WorkedAt(s.incoming, o, w, x, j, Ok);
    } else {
      NotWorked(s.incoming, o, w, x);
    }
    assert [] + On(es, Ok) == On(es, Ok) && [] + On(es, Rejected) == On(es, Rejected) && s.dropped + [] == s.dropped;
  }

  lemma NotWorked(ms: seq<Message>, o: Options, w: World, x: nat)
    requires CanWork(o) && Count(ms, x) == 0
    ensures forall p :: Count(On(WorkAll(ms, o, w), p), x) == 0
  {
    hide WorkAll, On, Doubled;
    WorkEntered(ms, o, w, x);
    DoubledCount(ms, o, w, x);
    Places(WorkAll(ms, o, w), x);
    forall p ensures Count(On(WorkAll(ms, o, w), p), x) == 0 {
      match p
      case Incoming =>
      case Ok =>
      case Rejected =>
      case Failed =>
      case Nowhere =>
    }
  }

  lemma RetriedCounts(t: State, o: Options, x: nat, r: nat)
    requires Counter(t.failed, x, r) && InQueue(t.download, x) == 0 && Count(t.gaveUp, x) == 0
    ensures var u := RetriedWork(t, o);
            && InQueue(u.download, x) == (if LastTry(o, r) then 0 else Count(t.failed, x))
            && Count(u.gaveUp, x) == (if LastTry(o, r) then Count(t.failed, x) else 0)
            && u == t.(download := u.download, gaveUp := u.gaveUp, failed := [])
  {
    var b := BumpAll(t.failed, false);
    FailsOnce(t.failed, o, x, r);
    CountConcat(t.download.waiting, Kept(b, o), x);
    CountConcat(t.gaveUp, GivenUp(b, o), x);
    hide Count, Kept, GivenUp, BumpAll, Counter;
  }

  lemma {:induction false} AbsentCounter(ms: seq<Message>, x: nat, r: nat)
    requires Count(ms, x) == 0
    ensures Counter(ms, x, r)
  {
    forall k | 0 <= k < |ms| ensures ms[k].id != x {
      if ms[k].id == x {
        CountAt(ms, k);
      }
    }
  }

  lemma RefilledCounts(u: State, o: Options, x: nat, r: nat)
    requires InQueue(u.post, x) == 0 && Counter(u.ok, x, r)
    ensures var t := Refilled(u, o);
            && Count(t.ok, x) == Count(u.ok, x) && Counter(t.ok, x, r)
            && InQueue(t.post, x) == 0 && t == u.(ok := t.ok, post := t.post)
  {
    var qty := PostRoom(o.batch, |u.ok|);
    if qty > 0 {
      FirstCount(u.post, qty, x);
      CountConcat(u.ok, First(u.post, qty), x);
      AbsentCounter(First(u.post, qty), x, r);
    }
    hide Count, First, Rest;
  }

  lemma ClearedCounts(s: State, x: nat)
    ensures var t := Cleared(s);
            && Count(t.refused, x) == Count(s.refused, x) + Count(s.rejected, x)
            && t == s.(acks := t.acks, refused := t.refused, rejected := [])
  {
    CountConcat(s.refused, s.rejected, x);
    hide AckAll, Count;
  }

  lemma PublishedCounts(s: State, o: Options, w: World, x: nat, k: nat, r: nat)
    requires o.publishing && s.rejected == [] && s.failed == []
    requires k < |s.ok| && s.ok[k].id == x && Count(s.ok, x) == 1 && Counter(s.ok, x, r)
    ensures var t := Published(s, o, w);
            && Count(t.ok, x) == (if w.publish(k) then 1 else 0)
            && Count(t.failed, x) == (if w.publish(k) then 0 else 1) && Counter(t.failed, x, r)
            && t == s.(ok := t.ok, failed := t.failed)
  {
    hide PublishAll, On, Count;
    var es := PublishAll(s.ok, w);
    PublishEach(s.ok, w);
    PublishPlaces(s.ok, w);
    PlacedAt(es, s.ok, x, k, Ok);
    PlacedAt(es, s.ok, x, k, Failed);
    OnCounter(es, Failed, x, r);
    assert [] + On(es, Ok) == On(es, Ok) && [] + On(es, Failed) == On(es, Failed);
    assert s.dropped + [] == s.dropped && s.incoming + [] == s.incoming && s.rejected + [] == s.rejected;
  }

  lemma RepostedCounts(t: State, o: Options, x: nat, r: nat)
    requires o.publishing && Counter(t.failed, x, r) && InQueue(t.post, x) == 0 && Count(t.gaveUp, x) == 0
    ensures var u := RetriedPost(t, o);
            && InQueue(u.post, x) == (if LastTry(o, r) then 0 else Count(t.failed, x))
            && Count(u.gaveUp, x) == (if LastTry(o, r) then Count(t.failed, x) else 0)
            && u == t.(post := u.post, gaveUp := u.gaveUp, failed := [])
  {
    var b := BumpAll(t.failed, false);
    FailsOnce(t.failed, o, x, r);
    CountConcat(t.post.waiting, Kept(b, o), x);
    CountConcat(t.gaveUp, GivenUp(b, o), x);
    hide Count, Kept, GivenUp, BumpAll, Counter;
  }

  lemma FinishedCounts(s: State, x: nat)
    ensures Count(Finished(s).done, x) == Count(s.done, x) + Count(s.ok, x)
    ensures Finished(s) == s.(done := s.done + s.ok, ok := [], failed := [])
  {
    CountConcat(s.done, s.ok, x);
  }

  /** After the publication: done if there is nothing to publish or it was published, else queued or given
      up. */
  lemma {:induction false} PostEnds(s: State, o: Options, w: World, x: nat, k: nat, r: nat)
    requires s.incoming == [] && s.rejected == [] && s.failed == []
    requires k < |s.ok| && s.ok[k].id == x && Count(s.ok, x) == 1 && Counter(s.ok, x, r)
    requires InQueue(s.post, x) == 0 && Count(s.gaveUp, x) == 0 && Count(s.done, x) == 0
    ensures var t, published := AfterPost(s, o, w), !o.publishing || w.publish(k);
            && Count(t.done, x) == (if published then 1 else 0)
            && InQueue(t.post, x) == (if !published && !LastTry(o, r) then 1 else 0)
            && Count(t.gaveUp, x) == (if !published && LastTry(o, r) then 1 else 0)
            && t.refused == s.refused && t.dropped == s.dropped && t.download == s.download
  {
    hide Count, InQueue, Counter, Finished, LastTry;
    if o.publishing {
      var t := Published(s, o, w);
      PublishedCounts(s, o, w, x, k, r);
      hide Published;
      RepostedCounts(t, o, x, r);
      hide RetriedPost;
      FinishedCounts(RetriedPost(t, o), x);
    } else {
      FinishedCounts(s, x);
    }
  }

  /** With nothing on the ok list, nothing more happens to `x`. */
  lemma {:induction false} PostOthers(s: State, o: Options, w: World, x: nat)
    requires s.incoming == [] && s.rejected == [] && s.failed == [] && Count(s.ok, x) == 0
    ensures var t := AfterPost(s, o, w);
            && Count(t.done, x) == Count(s.done, x) && InQueue(t.post, x) == InQueue(s.post, x)
            && Count(t.gaveUp, x) == Count(s.gaveUp, x)
            && t.refused == s.refused && t.dropped == s.dropped && t.download == s.download
  {
    hide PublishAll, On, Kept, GivenUp, BumpAll, Count;
    if o.publishing {
      var es := PublishAll(s.ok, w);
      PublishEach(s.ok, w);
      PublishPlaces(s.ok, w);
      NoneOn(es, s.ok, x, Ok);
      NoneOn(es, s.ok, x, Failed);
      assert [] + On(es, Ok) == On(es, Ok) && [] + On(es, Failed) == On(es, Failed) && s.dropped + [] == s.dropped;
      var b := BumpAll(On(es, Failed), false);
      CappedCount(On(es, Failed), false, o, x);
      CountConcat(s.post.waiting, Kept(b, o), x);
      CountConcat(s.gaveUp, GivenUp(b, o), x);
      CountConcat(s.done, On(es, Ok), x);
    } else {
      CountConcat(s.done, s.ok, x);
    }
  }

  // The whole pass.

  /** Every `x` among them is `m`. */
  ghost predicate AllAre(ms: seq<Message>, x: nat, m: Message) {
    forall k | 0 <= k < |ms| :: ms[k].id == x ==> ms[k] == m
  }

  lemma {:induction false} OnAre(es: seq<Entry>, p: Place, x: nat, m: Message)
    requires forall k | 0 <= k < |es| :: es[k].m.id == x ==> es[k].m == m
    ensures AllAre(On(es, p), x, m)
  {
    if es != [] {
      OnAre(es[..|es| - 1], p, x, m);
    }
  }

  lemma {:induction false} AbsentAre(ms: seq<Message>, x: nat, m: Message)
    requires Count(ms, x) == 0
    ensures AllAre(ms, x, m)
  {
    forall k | 0 <= k < |ms| ensures ms[k].id != x {
      if ms[k].id == x {
        CountAt(ms, k);
      }
    }
  }

  lemma {:induction false} OnlyOne(ms: seq<Message>, x: nat, i: nat, k: nat)
    requires i < |ms| && k < |ms| && ms[i].id == x && ms[k].id == x && Count(ms, x) <= 1
    ensures i == k
  {
    var n := |ms| - 1;
    if i < n && k < n {
      OnlyOne(ms[..n], x, i, k);
    } else if i < n {
      CountAt(ms[..n], i);
    } else if k < n {
      CountAt(ms[..n], k);
    }
  }

  /** What is at the work, and what was put off, is the message as the filter left it. */
  lemma {:induction false} AtWorkIs(s: State, arrived: seq<Message>, qty: int, o: Options, w: World, i: nat)
    requires Idle(s) && i < |arrived| && Count(arrived, arrived[i].id) == 1 && Load(s, arrived[i].id) == 0
    ensures var x, m := arrived[i].id, FilterOne(arrived[i], o, w, i).m;
            var f := AfterFilter(Gathered(s, arrived, qty, o), o, w);
            AllAre(f.incoming, x, m) && AllAre(f.failed, x, m)
  {
    hide FilterOne, FilterAll, On, Count, Gathered, AckAll;
    var x, g := arrived[i].id, Gathered(s, arrived, qty, o);
    var es, m := FilterAll(g.incoming, o, w), FilterOne(arrived[i], o, w, i).m;
    GatheredFirst(s, arrived, qty, o, x);
    GatheredLists(s, arrived, qty, o);
    GatheredLoad(s, arrived, qty, o, x);
    FilterEach(g.incoming, o, w);
    forall k | 0 <= k < |es| && es[k].m.id == x ensures es[k].m == m {
      OnlyOne(g.incoming, x, i, k);
    }
    OnAre(es, Incoming, x, m);
    OnAre(es, Failed, x, m);
    LoadIs(g, x);
    hide Load;
    FilteredAre(g, o, w, x, m);
  }

  lemma FilteredAre(g: State, o: Options, w: World, x: nat, m: Message)
    requires g.failed == [] && Queued(g, x) == 0
    requires AllAre(On(FilterAll(g.incoming, o, w), Incoming), x, m)
    requires AllAre(On(FilterAll(g.incoming, o, w), Failed), x, m)
    ensures var f := AfterFilter(g, o, w); AllAre(f.incoming, x, m) && AllAre(f.failed, x, m)
  {
    hide FilterAll, On, Count, Kept, GivenUp, BumpAll, AckAll, First, Rest, AllAre;
    var es := FilterAll(g.incoming, o, w);
    assert [] + On(es, Incoming) == On(es, Incoming) && [] + On(es, Failed) == On(es, Failed);
    var t := Filtered(g, o, w);
    var qty := Room(o.batch, |t.incoming|);
    var pulled := First(g.download, qty);
    FirstCount(g.download, qty, x);
    CappedCount(pulled, false, o, x);
    AbsentAre(Kept(BumpAll(pulled, false), o), x, m);
    AreConcat(On(es, Incoming), Kept(BumpAll(pulled, false), o), x, m);
  }

  lemma AreConcat(a: seq<Message>, b: seq<Message>, x: nat, m: Message)
    requires AllAre(a, x, m) && AllAre(b, x, m)
    ensures AllAre(a + b, x, m)
  {
  }

  /** Where a message that arrives ends, if it is not entered twice. `j` is its position at the work and `k`
      that on the ok list, if it gets there. The filter refuses it, puts it on no list, puts it off, or lets
      it through; the work then refuses it, puts it off, or does it; and what is done is published or not.
      It is queued for another transfer exactly if it was put off, and for another publication exactly if it
      was not published, unless the limit gives it up at that. */
  lemma {:induction false} EndsWhere(s: State, arrived: seq<Message>, qty: int, o: Options, ws: Worlds,
                                     i: nat, j: nat, k: nat)
    requires CanWork(o) && Idle(s) && i < |arrived|
    requires Count(arrived, arrived[i].id) == 1 && Load(s, arrived[i].id) == 0
    requires var e := FilterOne(arrived[i], o, ws.filter, i);
             var work := AtWork(s, arrived, qty, o, ws);
             e.place == Incoming ==>
               && j < |work| && work[j].id == arrived[i].id && WorkVerdict(e.m, o, ws.work, j).Some?
               && (WorkVerdict(e.m, o, ws.work, j) == Some(Ok) ==>
                     var ok := AfterWork(AfterFilter(Gathered(s, arrived, qty, o), o, ws.filter), o, ws.work).ok;
                     k < |ok| && ok[k].id == arrived[i].id)
    ensures var x, t := arrived[i].id, Pass(s, arrived, qty, o, ws);
            var e := FilterOne(arrived[i], o, ws.filter, i);
            var v := if e.place == Incoming then WorkVerdict(e.m, o, ws.work, j) else Some(e.place);
            var out := !o.publishing || ws.post.publish(k);
            var last := LastTry(o, arrived[i].retries);
            && Count(t.dropped, x) == (if e.place == Nowhere then 1 else 0)
            && Count(t.refused, x) == (if v == Some(Rejected) then 1 else 0)
            && InQueue(t.download, x) == (if v == Some(Failed) && !last then 1 else 0)
            && Count(t.done, x) == (if v == Some(Ok) && out then 1 else 0)
            && InQueue(t.post, x) == (if v == Some(Ok) && !out && !last then 1 else 0)
            && Count(t.gaveUp, x) == (if (v == Some(Failed) || (v == Some(Ok) && !out)) && last then 1 else 0)
  {
    hide FilterOne, Gathered, AfterFilter, AfterWork, AfterPost, Count, WorkVerdict, LastTry, InQueue;
    var x, g := arrived[i].id, Gathered(s, arrived, qty, o);
    var f, r := AfterFilter(g, o, ws.filter), arrived[i].retries;
    FilterEnds(s, arrived, qty, o, ws.filter, i);
    AtWorkIs(s, arrived, qty, o, ws.filter, i);
    FilterKeeps(arrived[i], o, ws.filter, i);
    AcceptedIff(arrived[i], o, ws.filter, i);
    LoadIs(f, x);
    QueuedParts(f, x);
    hide Queued, Load;
    assert Counter(f.incoming, x, r) && Counter(f.failed, x, r);
    var t := AfterWork(f, o, ws.work);
    WorkIdle(f, o, ws.work);
    if Count(f.incoming, x) + Count(f.failed, x) == 1 {
      WorkEnds(f, o, ws.work, x, j, r);
    } else {
      WorkOthers(f, o, ws.work, x);
    }
    if Count(t.ok, x) == 1 {
      PostEnds(t, o, ws.post, x, k, r);
    } else {
      PostOthers(t, o, ws.post, x);
    }
  }

  lemma QueuedParts(s: State, x: nat)
    ensures Queued(s, x) == InQueue(s.download, x) + InQueue(s.post, x)
  {
  }

  /** What is neither at the work nor put off is left as it is. */
  lemma WorkOthers(s: State, o: Options, w: World, x: nat)
    requires CanWork(o) && s.ok == [] && s.rejected == [] && Count(s.incoming, x) == 0 && Count(s.failed, x) == 0
    requires InQueue(s.download, x) == 0 && InQueue(s.post, x) == 0 && Count(s.gaveUp, x) == 0
    ensures var t := AfterWork(s, o, w);
            && Count(t.refused, x) == Count(s.refused, x) && InQueue(t.download, x) == 0 && Count(t.gaveUp, x) == 0
            && Count(t.ok, x) == 0 && InQueue(t.post, x) == 0 && Count(t.done, x) == Count(s.done, x)
            && Count(t.dropped, x) == Count(s.dropped, x)
  {
    hide WorkAll, Worked, RetriedWork, Refilled, Cleared, Count, InQueue;
    AbsentCounter(s.incoming, x, 0);
    AbsentCounter(s.failed, x, 0);
    hide Counter;
    WorkedCounts(s, o, w, x, 0, 0);
    RetriedCounts(Worked(s, o, w), o, x, 0);
    RefilledCounts(RetriedWork(Worked(s, o, w), o), o, x, 0);
    ClearedCounts(Refilled(RetriedWork(Worked(s, o, w), o), o), x);
  }
}
