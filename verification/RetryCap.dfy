/** The retry limit, over every run of passes and housekeepings: how many transfers and how many
    publications a message can cost before it is given up. */
module RetryCap {
  import opened Sequences
  import opened Worklist
  import opened FlowState
  import opened FlowConservation

  /** The most transfers a message can cost under a limit, if there is a most. */
  function MaxTries(o: Options): Option<nat>
    requires o.retryCountMax > 0
  {
    if !o.refilter then Some(1 + o.retryCountMax / 2)
    else if o.retryCountMax == 1 then Some(2)
    else None
  }

  ghost predicate TriesOk(m: Message, o: Options)
    requires o.retryCountMax > 0
  {
    MaxTries(o).Some? ==> m.tries <= MaxTries(o).value
  }

  /** Where a message can be: about to be worked on, worked on, on the download queue, on the ok list
      or the post queue, published or not, given up, or gone otherwise. */
  datatype Level = BeforeWork | AfterTry | Queued | ToPost | Tried | GaveUp | Anywhere

  ghost predicate Fits(m: Message, o: Options, l: Level)
    requires o.retryCountMax > 0
  {
    var limit := o.retryCountMax;
    match l
    case BeforeWork =>
      && m.posts == 0 && m.retries <= limit
      && if o.refilter then m.retries <= 1 && (limit == 1 ==> m.tries <= m.retries) else 2 * m.tries <= m.retries
    case AfterTry =>
      && m.posts == 0 && m.retries <= limit && TriesOk(m, o)
      && if o.refilter then m.retries <= 1 && (limit == 1 ==> m.tries <= m.retries + 1)
         else 2 * m.tries - 2 <= m.retries
    case Queued =>
      && m.posts == 0 && m.retries <= limit
      && if o.refilter then limit == 1 ==> m.tries <= 1 else 2 * m.tries - 1 <= m.retries
    case ToPost => TriesOk(m, o) && m.posts <= m.retries <= limit
    case Tried => TriesOk(m, o) && 1 <= m.posts <= m.retries + 1 && m.retries <= limit
    case GaveUp => TriesOk(m, o) && m.posts <= limit + 1 && (o.refilter && limit >= 2 ==> m.posts >= 1)
    case Anywhere => TriesOk(m, o) && m.posts <= limit + 1
  }

  ghost predicate AllFit(ms: seq<Message>, o: Options, l: Level)
    requires o.retryCountMax > 0
  {
    forall i | 0 <= i < |ms| :: Fits(ms[i], o, l)
  }

  ghost predicate Bounded(s: State, o: Options)
    requires o.retryCountMax > 0
  {
    && AllFit(s.post.ready, o, ToPost) && AllFit(s.post.waiting, o, ToPost)
    && AllFit(s.done, o, Anywhere) && AllFit(s.refused, o, Anywhere)
    && AllFit(s.gaveUp, o, GaveUp) && AllFit(s.dropped, o, Anywhere)
  }

  ghost predicate DownloadFits(s: State, o: Options)
    requires o.retryCountMax > 0
  {
    AllFit(s.download.ready, o, Queued) && AllFit(s.download.waiting, o, Queued)
  }

  /** Between passes. */
  ghost predicate Sound(s: State, o: Options)
    requires o.retryCountMax > 0
  {
    Idle(s) && DownloadFits(s, o) && Bounded(s, o)
  }

  ghost predicate NewOnes(ms: seq<Message>) {
    forall i | 0 <= i < |ms| :: ms[i].retries == 0 && ms[i].tries == 0 && ms[i].posts == 0
  }

  // Lists.

  lemma {:induction false} OnFits(es: seq<Entry>, p: Place, o: Options, l: Level)
    requires o.retryCountMax > 0 && forall i | 0 <= i < |es| :: Fits(es[i].m, o, l)
    ensures AllFit(On(es, p), o, l)
  {
    hide Fits;
    if es != [] {
      OnFits(es[..|es| - 1], p, o, l);
    }
  }

  lemma FitsConcat(a: seq<Message>, b: seq<Message>, o: Options, l: Level)
    requires o.retryCountMax > 0 && AllFit(a, o, l) && AllFit(b, o, l)
    ensures AllFit(a + b, o, l)
  {
    hide Fits;
  }

  /** The levels that follow from one another. */
  ghost predicate Weaker(l: Level, k: Level) {
    || (l == BeforeWork && (k == AfterTry || k == ToPost || k == Anywhere))
    || (l == AfterTry && (k == ToPost || k == Anywhere))
    || ((l == ToPost || l == Tried) && k == Anywhere)
  }

  lemma Weaken(ms: seq<Message>, o: Options, l: Level, k: Level)
    requires o.retryCountMax > 0 && AllFit(ms, o, l) && Weaker(l, k)
    ensures AllFit(ms, o, k)
  {
  }

  /** A counting that takes messages from one level to another, or to being given up. */
  ghost predicate Counts(l: Level, scrub: bool, k: Level, o: Options) {
    || (l == AfterTry && !scrub && k == Queued)
    || (l == Queued && scrub == o.refilter && k == BeforeWork)
    || (l == Tried && !scrub && k == ToPost)
  }

  lemma {:induction false} CountedFits(ms: seq<Message>, o: Options, l: Level, scrub: bool, k: Level)
    requires o.retryCountMax > 0 && AllFit(ms, o, l) && Counts(l, scrub, k, o)
    ensures AllFit(Kept(BumpAll(ms, scrub), o), o, k)
    ensures AllFit(GivenUp(BumpAll(ms, scrub), o), o, GaveUp)
  {
    hide Fits, Spent, BumpAll, Bump, Scrub;
    if ms != [] {
      var n := |ms| - 1;
      CountedFits(ms[..n], o, l, scrub, k);
      OneCounted(ms[n], o, l, scrub, k);
      assert BumpAll(ms, scrub)[..n] == BumpAll(ms[..n], scrub);
    }
  }

  lemma OneCounted(m: Message, o: Options, l: Level, scrub: bool, k: Level)
    requires o.retryCountMax > 0 && Fits(m, o, l) && Counts(l, scrub, k, o)
    ensures var b := Bump(if scrub then Scrub(m) else m);
            if Spent(b, o) then Fits(b, o, GaveUp) else Fits(b, o, k)
  {
  }

  lemma FirstFits(q: Pending, n: nat, o: Options, l: Level)
    requires o.retryCountMax > 0 && AllFit(q.ready, o, l)
    ensures AllFit(First(q, n), o, l) && AllFit(Rest(q, n).ready, o, l)
  {
    hide Fits;
  }

  // The decisions.

  ghost predicate EntriesFit(es: seq<Entry>, o: Options, l: Level)
    requires o.retryCountMax > 0
  {
    forall i | 0 <= i < |es| :: Fits(es[i].m, o, l)
  }

  lemma {:induction false} FilterFits(ms: seq<Message>, o: Options, w: World)
    requires o.retryCountMax > 0 && AllFit(ms, o, BeforeWork)
    ensures EntriesFit(FilterAll(ms, o, w), o, BeforeWork)
  {
    hide FilterOne;
    if ms != [] {
      FilterFits(ms[..|ms| - 1], o, w);
      FilterKeeps(ms[|ms| - 1], o, w, |ms| - 1);
    }
  }

  lemma TryFits(m: Message, l: Landing, o: Options)
    requires o.retryCountMax > 0 && Fits(m, o, BeforeWork)
    ensures Fits(Landed(m, l).m, o, AfterTry)
  {
  }

  lemma {:induction false} WorkFits(ms: seq<Message>, o: Options, w: World)
    requires o.retryCountMax > 0 && CanWork(o) && AllFit(ms, o, BeforeWork)
    ensures EntriesFit(WorkAll(ms, o, w), o, AfterTry)
  {
    if ms != [] {
      var n := |ms| - 1;
      WorkFits(ms[..n], o, w);
      Weaken([ms[n]], o, BeforeWork, AfterTry);
      assert Fits([ms[n]][0], o, AfterTry);
      forall l ensures Fits(Landed(ms[n], l).m, o, AfterTry) {
        TryFits(ms[n], l, o);
      }
      hide Landings, Sending, Fits, Landed;
    }
  }

  lemma {:induction false} PublishFits(ms: seq<Message>, o: Options, w: World)
    requires o.retryCountMax > 0 && AllFit(ms, o, ToPost)
    ensures EntriesFit(PublishAll(ms, w), o, Tried)
  {
    if ms != [] {
      PublishFits(ms[..|ms| - 1], o, w);
    }
  }

  // The stages of a pass.

  lemma GatheredStage(s: State, arrived: seq<Message>, qty: int, o: Options)
    requires o.retryCountMax > 0 && Sound(s, o) && NewOnes(arrived)
    ensures var g := Gathered(s, arrived, qty, o);
            && AllFit(g.incoming, o, BeforeWork) && DownloadFits(g, o) && Bounded(g, o)
            && g.ok == [] && g.rejected == [] && g.failed == []
  {
    assert AllFit(arrived, o, BeforeWork);
    assert s.incoming + arrived == arrived;
    if o.refilter && qty > 0 {
      var pulled := First(s.download, qty);
      FirstFits(s.download, qty, o, Queued);
      CountedFits(pulled, o, Queued, true, BeforeWork);
      FitsConcat(arrived, Kept(BumpAll(pulled, true), o), o, BeforeWork);
      FitsConcat(s.gaveUp, GivenUp(BumpAll(pulled, true), o), o, GaveUp);
    }
    hide AllFit, Kept, GivenUp, BumpAll, First, Fits;
  }

  lemma FilteredStage(s: State, o: Options, w: World)
    requires o.retryCountMax > 0 && AllFit(s.incoming, o, BeforeWork) && Bounded(s, o)
    requires s.ok == [] && s.rejected == [] && s.failed == []
    ensures var f := Filtered(s, o, w);
            && AllFit(f.incoming, o, BeforeWork) && AllFit(f.failed, o, AfterTry) && AllFit(f.ok, o, Anywhere)
            && AllFit(f.rejected, o, Anywhere) && f.download == s.download && Bounded(f, o)
  {
    var es := FilterAll(s.incoming, o, w);
    FilterFits(s.incoming, o, w);
    OnFits(es, Incoming, o, BeforeWork);
    OnFits(es, Rejected, o, BeforeWork);
    OnFits(es, Failed, o, BeforeWork);
    OnFits(es, Nowhere, o, BeforeWork);
    OnFits(es, Ok, o, BeforeWork);
    Weaken(On(es, Rejected), o, BeforeWork, Anywhere);
    Weaken(On(es, Nowhere), o, BeforeWork, Anywhere);
    Weaken(On(es, Ok), o, BeforeWork, Anywhere);
    Weaken(On(es, Failed), o, BeforeWork, AfterTry);
    FitsConcat(s.dropped, On(es, Nowhere), o, Anywhere);
    assert [] + On(es, Incoming) == On(es, Incoming) && [] + On(es, Rejected) == On(es, Rejected);
    assert [] + On(es, Failed) == On(es, Failed) && [] + On(es, Ok) == On(es, Ok);
    hide AllFit, FilterAll, On;
  }

  lemma AcceptedStage(f: State, o: Options)
    requires o.retryCountMax > 0 && AllFit(f.incoming, o, BeforeWork) && DownloadFits(f, o) && Bounded(f, o)
    ensures var t := Accepted(f, o);
            && AllFit(t.incoming, o, BeforeWork) && DownloadFits(t, o) && Bounded(t, o)
            && t.ok == f.ok && t.rejected == f.rejected && t.failed == f.failed
  {
    var qty := Room(o.batch, |f.incoming|);
    if !o.refilter {
      var pulled := First(f.download, qty);
      FirstFits(f.download, qty, o, Queued);
      CountedFits(pulled, o, Queued, false, BeforeWork);
      FitsConcat(f.incoming, Kept(BumpAll(pulled, false), o), o, BeforeWork);
      FitsConcat(f.gaveUp, GivenUp(BumpAll(pulled, false), o), o, GaveUp);
    }
    hide AllFit, Kept, GivenUp, BumpAll, First, Rest, Fits;
  }

  lemma SettledStage(t: State, o: Options)
    requires o.retryCountMax > 0 && Bounded(t, o) && AllFit(t.ok, o, Anywhere) && AllFit(t.rejected, o, Anywhere)
    ensures Bounded(FlowState.Settled(t), o)
  {
    FitsConcat(t.done, t.ok, o, Anywhere);
    FitsConcat(t.refused, t.rejected, o, Anywhere);
    hide AllFit, AckAll;
  }

  lemma FilterStage(s: State, arrived: seq<Message>, qty: int, o: Options, w: World)
    requires o.retryCountMax > 0 && Sound(s, o) && NewOnes(arrived)
    ensures var f := AfterFilter(Gathered(s, arrived, qty, o), o, w);
            && AllFit(f.incoming, o, BeforeWork) && AllFit(f.failed, o, AfterTry) && f.ok == [] && f.rejected == []
            && DownloadFits(f, o) && Bounded(f, o)
  {
    hide AllFit, Bounded, Gathered, Filtered, Accepted, AckAll;
    var g := Gathered(s, arrived, qty, o);
    GatheredStage(s, arrived, qty, o);
    FilteredStage(g, o, w);
    AcceptedStage(Filtered(g, o, w), o);
    SettledStage(Accepted(Filtered(g, o, w), o), o);
    SettledFields(Accepted(Filtered(g, o, w), o));
  }

  lemma SettledFields(t: State)
    ensures var u := FlowState.Settled(t);
            && u.incoming == t.incoming && u.failed == t.failed && u.ok == [] && u.rejected == []
            && u.download == t.download
  {
  }

  lemma WorkedStage(s: State, o: Options, w: World)
    requires o.retryCountMax > 0 && CanWork(o) && Bounded(s, o)
    requires AllFit(s.incoming, o, BeforeWork) && AllFit(s.failed, o, AfterTry) && s.ok == [] && s.rejected == []
    ensures var t := Worked(s, o, w);
            && AllFit(t.ok, o, ToPost) && AllFit(t.rejected, o, Anywhere) && AllFit(t.failed, o, AfterTry)
            && t.incoming == [] && t.download == s.download && Bounded(t, o)
  {
    var es := WorkAll(s.incoming, o, w);
    WorkFits(s.incoming, o, w);
    WorkPlaces(s.incoming, o, w);
    OnFits(es, Ok, o, AfterTry);
    OnFits(es, Rejected, o, AfterTry);
    OnFits(es, Failed, o, AfterTry);
    Weaken(On(es, Ok), o, AfterTry, ToPost);
    Weaken(On(es, Rejected), o, AfterTry, Anywhere);
    FitsConcat(s.failed, On(es, Failed), o, AfterTry);
    assert [] + On(es, Ok) == On(es, Ok) && [] + On(es, Rejected) == On(es, Rejected);
    assert s.dropped + [] == s.dropped;
    hide WorkAll, On, AckAll, AllFit;
  }

  lemma RetriedStage(t: State, o: Options)
    requires o.retryCountMax > 0 && AllFit(t.failed, o, AfterTry) && AllFit(t.ok, o, ToPost)
    requires AllFit(t.rejected, o, Anywhere) && DownloadFits(t, o) && Bounded(t, o)
    ensures var u := Refilled(RetriedWork(t, o), o);
            && AllFit(u.ok, o, ToPost) && AllFit(u.rejected, o, Anywhere) && u.failed == []
            && u.incoming == t.incoming && DownloadFits(u, o) && Bounded(u, o)
  {
    var qty := PostRoom(o.batch, |t.ok|);
    CountedFits(t.failed, o, AfterTry, false, Queued);
    FitsConcat(t.download.waiting, Kept(BumpAll(t.failed, false), o), o, Queued);
    FitsConcat(t.gaveUp, GivenUp(BumpAll(t.failed, false), o), o, GaveUp);
    if qty > 0 {
      FirstFits(t.post, qty, o, ToPost);
      FitsConcat(t.ok, First(t.post, qty), o, ToPost);
    }
    hide AllFit, Kept, GivenUp, BumpAll, First, Rest;
  }

  lemma WorkStage(s: State, o: Options, w: World)
    requires o.retryCountMax > 0 && CanWork(o) && Bounded(s, o) && DownloadFits(s, o)
    requires AllFit(s.incoming, o, BeforeWork) && AllFit(s.failed, o, AfterTry) && s.ok == [] && s.rejected == []
    ensures var t := AfterWork(s, o, w);
            && DownloadFits(t, o) && Bounded(t, o)
            && AllFit(t.ok, o, ToPost) && t.incoming == [] && t.rejected == [] && t.failed == []
  {
    hide AllFit, Worked, Refilled, RetriedWork, AckAll;
    WorkedStage(s, o, w);
    RetriedStage(Worked(s, o, w), o);
    var u := Refilled(RetriedWork(Worked(s, o, w), o), o);
    FitsConcat(u.refused, u.rejected, o, Anywhere);
  }

  lemma PostStage(s: State, o: Options, w: World)
    requires o.retryCountMax > 0 && Bounded(s, o) && DownloadFits(s, o) && AllFit(s.ok, o, ToPost)
    requires s.incoming == [] && s.rejected == [] && s.failed == []
    ensures Sound(AfterPost(s, o, w), o)
  {
    PostIdle(s, o, w);
    if o.publishing {
      var es := PublishAll(s.ok, w);
      PublishFits(s.ok, o, w);
      PublishPlaces(s.ok, w);
      OnFits(es, Ok, o, Tried);
      OnFits(es, Failed, o, Tried);
      Weaken(On(es, Ok), o, Tried, Anywhere);
      CountedFits(On(es, Failed), o, Tried, false, ToPost);
      FitsConcat(s.post.waiting, Kept(BumpAll(On(es, Failed), false), o), o, ToPost);
      FitsConcat(s.gaveUp, GivenUp(BumpAll(On(es, Failed), false), o), o, GaveUp);
      FitsConcat(s.done, On(es, Ok), o, Anywhere);
      assert [] + On(es, Ok) == On(es, Ok) && [] + On(es, Failed) == On(es, Failed);
      assert s.dropped + [] == s.dropped;
    } else {
      Weaken(s.ok, o, ToPost, Anywhere);
      FitsConcat(s.done, s.ok, o, Anywhere);
    }
    hide PublishAll, On, Kept, GivenUp, BumpAll, AllFit;
  }

  // Runs.

  lemma {:induction false} SubseqFits(a: seq<Message>, b: seq<Message>, o: Options, l: Level)
    requires o.retryCountMax > 0 && IsSubseq(a, b) && AllFit(b, o, l)
    ensures AllFit(a, o, l)
    decreases |b|
  {
    hide Fits;
    if a != [] {
      var n, m := |a| - 1, |b| - 1;
      if a[n] == b[m] && IsSubseq(a[..n], b[..m]) {
        SubseqFits(a[..n], b[..m], o, l);
      } else {
        SubseqFits(a, b[..m], o, l);
      }
    }
  }

  lemma RotatedFits(q: Pending, kept: Option<seq<Message>>, o: Options, l: Level)
    requires o.retryCountMax > 0 && Rotates(q, kept) && AllFit(q.ready, o, l) && AllFit(q.waiting, o, l)
    ensures AllFit(Rotated(q, kept).ready, o, l) && AllFit(Rotated(q, kept).waiting, o, l)
  {
    if kept.Some? {
      SubseqFits(kept.value, q.waiting, o, l);
    }
  }

  lemma StepFits(s: State, st: Step, o: Options)
    requires o.retryCountMax > 0 && CanStep(s, st, o) && Sound(s, o) && (st.PassStep? ==> NewOnes(st.arrived))
    ensures Sound(Next(s, st, o), o)
  {
    hide AfterFilter, AfterWork, AfterPost, Gathered, AllFit, Rotates, Rotated, NewOnes;
    match st
    case PassStep(arrived, qty, ws) =>
      var f := AfterFilter(Gathered(s, arrived, qty, o), o, ws.filter);
      FilterStage(s, arrived, qty, o, ws.filter);
      WorkStage(f, o, ws.work);
      PostStage(AfterWork(f, o, ws.work), o, ws.post);
    case Housekeeping(d, p) =>
      RotatedFits(s.download, d, o, Queued);
      RotatedFits(s.post, p, o, ToPost);
  }

  lemma {:induction false} LimitHolds(s: State, steps: seq<Step>, o: Options)
    requires o.retryCountMax > 0 && CanRun(s, steps, o) && Sound(s, o)
    requires forall i | 0 <= i < |steps| :: steps[i].PassStep? ==> NewOnes(steps[i].arrived)
    ensures Sound(Run(s, steps, o), o)
    decreases |steps|
  {
    if steps != [] {
      StepFits(s, steps[0], o);
      LimitHolds(Next(s, steps[0], o), steps[1..], o);
      hide Sound, Next;
    }
  }

  /** Nothing in the flow, nothing gone. */
  const NOTHING := State([], [], [], [], Pending([], []), Pending([], []), Acks({}, []), [], [], [], [])

  function Everything(s: State): seq<Message> {
    s.download.ready + s.download.waiting + s.post.ready + s.post.waiting + s.done + s.refused + s.gaveUp + s.dropped
  }

  /** Over any run from an empty flow, under a limit R: no message anywhere was handed to the
      publication more than R + 1 times; none was handed to a transfer more than 1 + R / 2 times, or,
      with refiltering and R = 1, more than twice; with refiltering and a larger R no message is
      ever given up but after a publication of it that failed; and without refiltering the counter of
      one waiting for a transfer shows at least two for each transfer but the first, and one for that. */
  lemma LimitOverRuns(steps: seq<Step>, o: Options)
    requires o.retryCountMax > 0 && CanRun(NOTHING, steps, o)
    requires forall i | 0 <= i < |steps| :: steps[i].PassStep? ==> NewOnes(steps[i].arrived)
    ensures var s := Run(NOTHING, steps, o);
            && (forall m | m in Everything(s) :: m.posts <= o.retryCountMax + 1)
            && (forall m | m in Everything(s) :: MaxTries(o).Some? ==> m.tries <= MaxTries(o).value)
            && (o.refilter && o.retryCountMax >= 2 ==> forall m | m in s.gaveUp :: m.posts >= 1)
            && (!o.refilter ==> forall m | m in s.download.ready + s.download.waiting ::
                  2 * m.tries - 1 <= m.retries <= o.retryCountMax)
  {
    LimitHolds(NOTHING, steps, o);
    var s := Run(NOTHING, steps, o);
    SoundBound(s, o);
    if !o.refilter {
      forall m | m in s.download.ready + s.download.waiting ensures 2 * m.tries - 1 <= m.retries <= o.retryCountMax {
        assert m in s.download.ready || m in s.download.waiting;
        QueuedFits(s, o, m);
      }
    }
  }

  lemma QueuedFits(s: State, o: Options, m: Message)
    requires o.retryCountMax > 0 && !o.refilter && DownloadFits(s, o)
    requires m in s.download.ready || m in s.download.waiting
    ensures 2 * m.tries - 1 <= m.retries <= o.retryCountMax
  {
  }

  lemma MemberFits(ms: seq<Message>, o: Options, l: Level, m: Message)
    requires o.retryCountMax > 0 && AllFit(ms, o, l) && m in ms
    requires l == Queued || l == ToPost || l == GaveUp || l == Anywhere
    ensures m.posts <= o.retryCountMax + 1 && TriesOk(m, o)
  {
  }

  lemma SoundBound(s: State, o: Options)
    requires o.retryCountMax > 0 && Sound(s, o)
    ensures forall m | m in Everything(s) :: m.posts <= o.retryCountMax + 1 && TriesOk(m, o)
    ensures o.refilter && o.retryCountMax >= 2 ==> forall m | m in s.gaveUp :: m.posts >= 1
  {
    forall m | m in Everything(s) ensures m.posts <= o.retryCountMax + 1 && TriesOk(m, o) {
      hide AllFit, TriesOk;
      if m in s.download.ready { MemberFits(s.download.ready, o, Queued, m); }
      else if m in s.download.waiting { MemberFits(s.download.waiting, o, Queued, m); }
      else if m in s.post.ready { MemberFits(s.post.ready, o, ToPost, m); }
      else if m in s.post.waiting { MemberFits(s.post.waiting, o, ToPost, m); }
      else if m in s.done { MemberFits(s.done, o, Anywhere, m); }
      else if m in s.refused { MemberFits(s.refused, o, Anywhere, m); }
      else if m in s.gaveUp { MemberFits(s.gaveUp, o, GaveUp, m); }
      else { MemberFits(s.dropped, o, Anywhere, m); }
    }
  }
}
