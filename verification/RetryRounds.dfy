/** What becomes of one message that always fails, pass after pass: when the retry limit ends it. */
module RetryRounds {
  import opened Sequences
  import opened Worklist
  import opened FlowState
  import opened FlowConservation
  import opened RetryCap
  import Ends = RetryEnds

  // One pass with one message.

  lemma One(m: Message, o: Options)
    ensures Kept([m], o) == (if Spent(m, o) then [] else [m])
    ensures GivenUp([m], o) == if Spent(m, o) then [m] else []
  {
    assert [m][..0] == [];
  }

  lemma OnSingle(e: Entry, p: Place)
    ensures On([e], p) == if e.place == p then [e.m] else []
  {
    assert [e][..0] == [];
  }

  lemma FilterSingle(m: Message, o: Options, w: World)
    ensures FilterAll([m], o, w) == [FilterOne(m, o, w, 0)]
  {
    hide FilterOne;
    assert [m][..0] == [];
  }

  /** What the filter does with a single message that it lets through. */
  lemma OneFiltered(m: Message, o: Options, w: World)
    requires FilterOne(m, o, w, 0).place == Incoming
    ensures var es := FilterAll([m], o, w);
            && On(es, Incoming) == [FilterOne(m, o, w, 0).m] && On(es, Ok) == []
            && On(es, Rejected) == [] && On(es, Failed) == [] && On(es, Nowhere) == []
  {
    hide FilterOne, On, FilterAll;
    var e := FilterOne(m, o, w, 0);
    FilterSingle(m, o, w);
    OnSingle(e, Incoming);
    OnSingle(e, Ok);
    OnSingle(e, Rejected);
    OnSingle(e, Failed);
    OnSingle(e, Nowhere);
  }

  lemma DownloadSingle(at: Message, o: Options, w: World, l: Landing)
    requires Landings(at, o, w, 0) == [l]
    ensures DownloadAll([at], o, w) == [Landed(at, l)]
  {
    hide Landings, Landed;
    assert [at][..0] == [];
    assert Entries(at, Landings(at, o, w, 0)) == [Landed(at, l)];
  }

  lemma OneEntry(at: Message, o: Options, w: World, l: Landing)
    requires Landings(at, o, w, 0) == [l] && IsEnd(l)
    ensures var es, m := DownloadAll([at], o, w), Landed(at, l).m;
            && On(es, Failed) == (if l.place == Failed then [m] else [])
            && On(es, Ok) == (if l.place == Ok then [m] else [])
            && On(es, Rejected) == (if l.place == Rejected then [m] else [])
            && On(es, Incoming) == [] && On(es, Nowhere) == []
  {
    hide Landings, On, DownloadAll;
    var e := Landed(at, l);
    DownloadSingle(at, o, w, l);
    OnSingle(e, Failed);
    OnSingle(e, Ok);
    OnSingle(e, Rejected);
    OnSingle(e, Incoming);
    OnSingle(e, Nowhere);
  }

  /** The message `at`, if there is one, and nothing else has reached the work. */
  ghost predicate ReachesWork(f: State, at: Option<Message>) {
    && f.incoming == (if at.Some? then [at.value] else [])
    && f.ok == [] && f.rejected == [] && f.failed == []
  }

  /** A message that arrives in an idle flow and passes the filter. */
  lemma ArrivesAlone(s: State, m: Message, qty: int, o: Options, w: World)
    requires Idle(s) && s.download == Pending([], [])
    requires FilterOne(m, o, w, 0).place == Incoming
    ensures var f := AfterFilter(Gathered(s, [m], qty, o), o, w);
            && ReachesWork(f, Some(FilterOne(m, o, w, 0).m))
            && f.download == s.download && f.post == s.post && f.gaveUp == s.gaveUp
  {
    OneFiltered(m, o, w);
    hide FilterOne, FilterAll, On, AckAll;
    assert s.incoming + [m] == [m];
    assert BumpAll([], true) == [];
    assert [m] + [] == [m];
  }

  /** An idle flow whose download queue offers nothing. */
  lemma NothingArrives(s: State, qty: int, o: Options, w: World)
    requires Idle(s) && s.download == Pending([], [])
    ensures var f := AfterFilter(Gathered(s, [], qty, o), o, w);
            && ReachesWork(f, None)
            && f.download == s.download && f.post == s.post && f.gaveUp == s.gaveUp
  {
    hide AckAll;
    assert s.incoming + [] == [];
    assert BumpAll([], true) == [];
    assert FilterAll([], o, w) == [];
  }

  /** How a message comes back from the queue: counted, with refiltering from 0 again. */
  function Returned(q: Message, o: Options): Message {
    Bump(if o.refilter then Scrub(q) else q)
  }

  /** What reaches the work of it: with refiltering it passes the filter again. */
  function Again(q: Message, o: Options, w: World): Message {
    if o.refilter then FilterOne(Returned(q, o), o, w, 0).m else Returned(q, o)
  }

  /** A message that is taken from the queue in an otherwise idle flow, and, where it is filtered,
      passes the filter. */
  lemma ReturnsAlone(s: State, q: Message, qty: int, o: Options, w: World)
    requires Idle(s) && s.download == Pending([q], []) && qty > 0 && o.batch > 0
    requires o.refilter ==> FilterOne(Returned(q, o), o, w, 0).place == Incoming
    ensures var f := AfterFilter(Gathered(s, [], qty, o), o, w);
            var b := Returned(q, o);
            && ReachesWork(f, if Spent(b, o) then None else Some(Again(q, o, w)))
            && f.download == Pending([], []) && f.post == s.post
            && f.gaveUp == s.gaveUp + if Spent(b, o) then [b] else []
  {
    if o.refilter {
      PulledAlone(s, q, qty, o);
      FilteredAlone(Gathered(s, [], qty, o), q, o, w);
    } else {
      TakenAlone(s, q, qty, o, w);
    }
    hide Gathered, AfterFilter, Returned, FilterOne;
  }

  lemma TakenAlone(s: State, q: Message, qty: int, o: Options, w: World)
    requires Idle(s) && s.download == Pending([q], []) && !o.refilter && o.batch > 0
    ensures var f := AfterFilter(Gathered(s, [], qty, o), o, w);
            var b := Bump(q);
            && ReachesWork(f, if Spent(b, o) then None else Some(b))
            && f.download == Pending([], []) && f.post == s.post
            && f.gaveUp == s.gaveUp + if Spent(b, o) then [b] else []
  {
    hide FilterOne, Kept, GivenUp, AckAll, Spent;
    One(Bump(q), o);
    assert s.incoming + [] == [];
    assert FilterAll([], o, w) == [];
    assert First(s.download, Room(o.batch, 0)) == [q];
    assert BumpAll([q], false) == [Bump(q)];
  }

  lemma PulledAlone(s: State, q: Message, qty: int, o: Options)
    requires Idle(s) && s.download == Pending([q], []) && o.refilter && qty > 0
    ensures var g := Gathered(s, [], qty, o);
            var b := Bump(Scrub(q));
            && g.incoming == (if Spent(b, o) then [] else [b]) && g.ok == [] && g.rejected == [] && g.failed == []
            && g.download == Pending([], []) && g.post == s.post
            && g.gaveUp == s.gaveUp + if Spent(b, o) then [b] else []
  {
    hide Kept, GivenUp, Spent, Scrub;
    One(Bump(Scrub(q)), o);
    assert First(s.download, qty) == [q];
    assert BumpAll([q], true) == [Bump(Scrub(q))];
    assert s.incoming + [] == [];
  }

  lemma FilteredAlone(g: State, q: Message, o: Options, w: World)
    requires var b := Bump(Scrub(q));
             && g.incoming == (if Spent(b, o) then [] else [b]) && g.ok == [] && g.rejected == [] && g.failed == []
             && FilterOne(b, o, w, 0).place == Incoming
    requires g.download == Pending([], []) && o.refilter
    ensures var f := AfterFilter(g, o, w);
            var b := Bump(Scrub(q));
            && ReachesWork(f, if Spent(b, o) then None else Some(FilterOne(b, o, w, 0).m))
            && f.download == g.download && f.post == g.post && f.gaveUp == g.gaveUp
  {
    OneFiltered(Bump(Scrub(q)), o, w);
    assert FilterAll([], o, w) == [];
    hide FilterOne, FilterAll, On, AckAll, Spent, Scrub;
  }

  /** The work of one message that fails: counted, and put on the queue or given up. */
  lemma FailsAlone(f: State, at: Message, o: Options, w: World)
    requires ReachesWork(f, Some(at)) && f.post == Pending([], []) && f.download == Pending([], [])
    requires o.download && !o.sender && Landings(at, o, w, 0) == [Landing(Failed, 0)]
    ensures var put := Bump(at.(tries := at.tries + 1));
            var t := AfterWork(f, o, w);
            && t.download == Pending([], if Spent(put, o) then [] else [put]) && t.ok == [] && t.failed == []
            && t.post == f.post && t.gaveUp == f.gaveUp + if Spent(put, o) then [put] else []
  {
    hide Landings, Kept, GivenUp, AckAll, DownloadAll, On, Spent;
    var failed := at.(tries := at.tries + 1);
    assert failed == Landed(at, Landing(Failed, 0)).m;
    One(Bump(failed), o);
    OneEntry(at, o, w, Landing(Failed, 0));
    assert BumpAll([failed], false) == [Bump(failed)];
    var t := Worked(f, o, w);
    assert t.failed == [failed] && t.ok == [] && t.download == f.download && t.post == f.post
        && t.gaveUp == f.gaveUp by {
      assert [] + [failed] == [failed];
    }
    hide Worked, Bump;
    assert Refilled(RetriedWork(t, o), o) == RetriedWork(t, o);
    assert RetriedWork(t, o).download.waiting == [] + Kept([Bump(failed)], o);
  }

  lemma NoWork(f: State, o: Options, w: World)
    requires ReachesWork(f, None) && f.post == Pending([], []) && o.download && !o.sender
    ensures var t := AfterWork(f, o, w);
            && t.download == f.download && t.post == f.post && t.gaveUp == f.gaveUp && t.ok == [] && t.failed == []
  {
    hide AckAll;
    assert DownloadAll([], o, w) == [];
    assert BumpAll([], false) == [];
  }

  lemma NoPost(t: State, o: Options, w: World)
    requires t.ok == [] && t.failed == []
    ensures var u := AfterPost(t, o, w);
            u.download == t.download && u.gaveUp == t.gaveUp && u.post == t.post
  {
    assert PublishAll([], w) == [];
    assert BumpAll([], false) == [];
  }

  /** The first pass of a message that fails. */
  lemma FirstFailure(s: State, m: Message, qty: int, o: Options, ws: Worlds)
    requires Idle(s) && s.download == Pending([], []) && s.post == Pending([], []) && o.download && !o.sender
    requires FilterOne(m, o, ws.filter, 0).place == Incoming
    requires Landings(FilterOne(m, o, ws.filter, 0).m, o, ws.work, 0) == [Landing(Failed, 0)]
    ensures var at := FilterOne(m, o, ws.filter, 0).m;
            var put := Bump(at.(tries := at.tries + 1));
            var t := Pass(s, [m], qty, o, ws);
            && t.download == Pending([], if Spent(put, o) then [] else [put]) && t.post == s.post
            && t.gaveUp == s.gaveUp + if Spent(put, o) then [put] else []
  {
    hide Gathered, AfterFilter, AfterWork, AfterPost, Landings, FilterOne, Spent;
    var f := AfterFilter(Gathered(s, [m], qty, o), o, ws.filter);
    ArrivesAlone(s, m, qty, o, ws.filter);
    FailsAlone(f, FilterOne(m, o, ws.filter, 0).m, o, ws.work);
    NoPost(AfterWork(f, o, ws.work), o, ws.post);
  }

  /** A later pass of it: it is taken from the queue and counted, filtered again where that is
      configured, transferred without success, counted again and put back, or given up at either
      count. */
  lemma FailingPass(s: State, q: Message, qty: int, o: Options, ws: Worlds)
    requires Idle(s) && s.download == Pending([q], []) && s.post == Pending([], [])
    requires qty > 0 && o.batch > 0 && o.download && !o.sender
    requires o.refilter ==> FilterOne(Returned(q, o), o, ws.filter, 0).place == Incoming
    requires Landings(Again(q, o, ws.filter), o, ws.work, 0) == [Landing(Failed, 0)]
    ensures var b, at := Returned(q, o), Again(q, o, ws.filter);
            var put := Bump(at.(tries := at.tries + 1));
            var t := Pass(s, [], qty, o, ws);
            t.post == s.post &&
            if Spent(b, o) then t.download == Pending([], []) && t.gaveUp == s.gaveUp + [b]
            else if Spent(put, o) then t.download == Pending([], []) && t.gaveUp == s.gaveUp + [put]
            else t.download == Pending([], [put]) && t.gaveUp == s.gaveUp
  {
    hide Gathered, AfterFilter, AfterWork, AfterPost, Landings, FilterOne, Spent, Returned, Again;
    var f := AfterFilter(Gathered(s, [], qty, o), o, ws.filter);
    ReturnsAlone(s, q, qty, o, ws.filter);
    if Spent(Returned(q, o), o) {
      NoWork(f, o, ws.work);
    } else {
      FailsAlone(f, Again(q, o, ws.filter), o, ws.work);
    }
    NoPost(AfterWork(f, o, ws.work), o, ws.post);
  }

  lemma QuietPass(s: State, qty: int, o: Options, ws: Worlds)
    requires Idle(s) && s.download == Pending([], []) && s.post == Pending([], []) && o.download && !o.sender
    ensures var t := Pass(s, [], qty, o, ws);
            t.download == s.download && t.post == s.post && t.gaveUp == s.gaveUp
  {
    hide Gathered, AfterFilter, AfterWork, AfterPost;
    var f := AfterFilter(Gathered(s, [], qty, o), o, ws.filter);
    NothingArrives(s, qty, o, ws.filter);
    NoWork(f, o, ws.work);
    NoPost(AfterWork(f, o, ws.work), o, ws.post);
  }

  // Pass after pass, a housekeeping before each.

  /** `k` is `m` but for the counters and the fields that the flow computes. */
  ghost predicate Variant(k: Message, m: Message) {
    k == m.(newDir := k.newDir, newFile := k.newFile, report := k.report,
            retries := k.retries, tries := k.tries, posts := k.posts)
  }

  ghost predicate IsNew(m: Message) {
    m.retries == 0 && m.tries == 0 && m.posts == 0 && !m.renameUnlink
  }

  ghost predicate Passes(k: Message, m: Message, o: Options, w: World) {
    var e := FilterOne(k, o, w, 0);
    e.place == Incoming && Variant(e.m, m) && e.m.newDir
  }

  /** The message is always let through by the filter, and its work always ends as `l` says. */
  ghost predicate AlwaysEnds(m: Message, o: Options, ws: nat -> Worlds, l: Landing) {
    forall n: nat, k: Message | Variant(k, m) ::
      Passes(k, m, o, ws(n).filter) && (k.newDir ==> Landings(k, o, ws(n).work, 0) == [l])
  }

  const FAILURE := Landing(Failed, 0)
  const SUCCESS := Landing(Ok, 201)

  /** A housekeeping that keeps everything. */
  ghost function Turned(s: State): State {
    s.(download := Pending(s.download.ready + s.download.waiting, []),
       post := Pending(s.post.ready + s.post.waiting, []))
  }

  lemma TurnIsStep(s: State, o: Options)
    requires s.download.ready == [] && s.post.ready == []
    ensures var st := Housekeeping(Some(s.download.waiting), Some(s.post.waiting));
            CanStep(s, st, o) && Next(s, st, o) == Turned(s)
  {
    SubseqRefl(s.download.waiting);
    SubseqRefl(s.post.waiting);
    assert [] + s.download.waiting == s.download.waiting && [] + s.post.waiting == s.post.waiting;
  }

  /** The flow after the pass in which `m` arrives and `n` more in which nothing does. */
  ghost function Rounds(m: Message, o: Options, ws: nat -> Worlds, n: nat): State
    requires CanWork(o)
  {
    if n == 0 then Pass(NOTHING, [m], o.batch, o, ws(0))
    else Pass(Turned(Rounds(m, o, ws, n - 1)), [], o.batch, o, ws(n))
  }

  /** The steps that lead there. */
  ghost function RoundSteps(m: Message, o: Options, ws: nat -> Worlds, n: nat): seq<Step>
    requires CanWork(o)
  {
    if n == 0 then [PassStep([m], o.batch, ws(0))]
    else
      var s := Rounds(m, o, ws, n - 1);
      RoundSteps(m, o, ws, n - 1)
      + [Housekeeping(Some(s.download.waiting), Some(s.post.waiting)), PassStep([], o.batch, ws(n))]
  }

  /** As long as every round leaves nothing ready, the rounds are a run of the flow. */
  lemma {:induction false} RoundsAreRun(m: Message, o: Options, ws: nat -> Worlds, n: nat)
    requires CanWork(o)
    requires forall k: nat | k < n :: var s := Rounds(m, o, ws, k); s.download.ready == [] && s.post.ready == []
    ensures CanRun(NOTHING, RoundSteps(m, o, ws, n), o)
    ensures Run(NOTHING, RoundSteps(m, o, ws, n), o) == Rounds(m, o, ws, n)
  {
    hide Pass, CanRun, Run;
    if n == 0 {
      RunNil(Pass(NOTHING, [m], o.batch, o, ws(0)), o);
      RunCons(NOTHING, PassStep([m], o.batch, ws(0)), [], o);
      assert [PassStep([m], o.batch, ws(0))] + [] == [PassStep([m], o.batch, ws(0))];
    } else {
      var s := Rounds(m, o, ws, n - 1);
      var turn := Housekeeping(Some(s.download.waiting), Some(s.post.waiting));
      RoundsAreRun(m, o, ws, n - 1);
      TurnIsStep(s, o);
      TwoSteps(s, turn, PassStep([], o.batch, ws(n)), o);
      RunConcat(NOTHING, RoundSteps(m, o, ws, n - 1), [turn, PassStep([], o.batch, ws(n))], o);
    }
  }

  ghost predicate Reachable(s: State, o: Options) {
    exists steps :: CanRun(NOTHING, steps, o) && Run(NOTHING, steps, o) == s
  }

  // Transfers.

  /** Still on the queue after `n` more passes. */
  predicate StillRetried(o: Options, n: nat) {
    o.retryCountMax <= 0
    || if o.refilter then n == 0 || o.retryCountMax >= 2 else 2 * n + 1 <= o.retryCountMax
  }

  function RetriesAfter(o: Options, n: nat): nat {
    if !o.refilter then 2 * n + 1 else if n == 0 then 1 else 2
  }

  /** After `n` more passes `m` is on the queue, or was given up, having cost as many transfers as it
      can. */
  ghost predicate RoundIs(s: State, m: Message, o: Options, n: nat) {
    && Idle(s) && s.post == Pending([], []) && s.download.ready == []
    && if StillRetried(o, n) then
         && s.gaveUp == [] && |s.download.waiting| == 1
         && OnQueue(s.download.waiting[0], m, o, n)
       else
         && s.download.waiting == [] && |s.gaveUp| == 1 && Variant(s.gaveUp[0], m)
         && MaxTries(o) == Some(s.gaveUp[0].tries)
  }

  ghost predicate OnQueue(q: Message, m: Message, o: Options, n: nat) {
    Variant(q, m) && q.newDir && q.retries == RetriesAfter(o, n) && q.tries == n + 1 && q.posts == 0
  }

  lemma FirstPasses(m: Message, o: Options, ws: nat -> Worlds, l: Landing)
    requires IsNew(m) && AlwaysEnds(m, o, ws, l)
    ensures var at := FilterOne(m, o, ws(0).filter, 0).m;
            && FilterOne(m, o, ws(0).filter, 0).place == Incoming && Variant(at, m) && at.newDir && SameCounters(at, m)
            && Landings(at, o, ws(0).work, 0) == [l]
  {
    hide FilterOne, Landings;
    assert Variant(m, m);
    assert Passes(m, m, o, ws(0).filter);
    FilterKeeps(m, o, ws(0).filter, 0);
    assert Variant(FilterOne(m, o, ws(0).filter, 0).m, m);
  }

  lemma FirstRound(m: Message, o: Options, ws: nat -> Worlds)
    requires o.batch > 0 && o.download && !o.sender && IsNew(m) && AlwaysEnds(m, o, ws, FAILURE)
    ensures RoundIs(Rounds(m, o, ws, 0), m, o, 0)
  {
    hide Pass, FilterOne, Landings, AlwaysEnds, Variant;
    FirstPasses(m, o, ws, FAILURE);
    BumpVariant(FilterOne(m, o, ws(0).filter, 0).m, m);
    FirstFailure(NOTHING, m, o.batch, o, ws(0));
    PassIdle(NOTHING, [m], o.batch, o, ws(0));
  }

  /** How a message on the queue reaches the work again. */
  lemma AgainIs(q: Message, m: Message, o: Options, n: nat, ws: nat -> Worlds)
    requires IsNew(m) && AlwaysEnds(m, o, ws, FAILURE) && n > 0 && OnQueue(q, m, o, n - 1)
    ensures o.refilter ==> FilterOne(Returned(q, o), o, ws(n).filter, 0).place == Incoming
    ensures Landings(Again(q, o, ws(n).filter), o, ws(n).work, 0) == [FAILURE]
    ensures Variant(Returned(q, o), m) && Variant(Again(q, o, ws(n).filter), m) && Again(q, o, ws(n).filter).newDir
    ensures Again(q, o, ws(n).filter).retries == Returned(q, o).retries == (if o.refilter then 1 else 2 * n)
    ensures Again(q, o, ws(n).filter).tries == Returned(q, o).tries == n && Again(q, o, ws(n).filter).posts == 0
  {
    hide FilterOne, Landings;
    var b := Returned(q, o);
    assert Variant(b, m);
    assert Passes(b, m, o, ws(n).filter);
    FilterKeeps(b, o, ws(n).filter, 0);
    assert Variant(Again(q, o, ws(n).filter), m);
  }

  lemma NextRound(s: State, m: Message, o: Options, ws: nat -> Worlds, n: nat)
    requires o.batch > 0 && o.download && !o.sender && IsNew(m) && AlwaysEnds(m, o, ws, FAILURE)
    requires n > 0 && RoundIs(s, m, o, n - 1)
    ensures RoundIs(Pass(Turned(s), [], o.batch, o, ws(n)), m, o, n)
  {
    hide Pass, FilterOne, Landings, AlwaysEnds, Variant;
    var t := Turned(s);
    PassIdle(t, [], o.batch, o, ws(n));
    if StillRetried(o, n - 1) {
      var q := s.download.waiting[0];
      assert [] + s.download.waiting == [q];
      AgainIs(q, m, o, n, ws);
      FailingPass(t, q, o.batch, o, ws(n));
      BumpVariant(Again(q, o, ws(n).filter), m);
      hide Returned, Again;
    } else {
      QuietPass(t, o.batch, o, ws(n));
    }
  }

  lemma BumpVariant(at: Message, m: Message)
    requires Variant(at, m)
    ensures Variant(Bump(at.(tries := at.tries + 1)), m)
  {
  }

  lemma {:induction false} RoundsAre(m: Message, o: Options, ws: nat -> Worlds, n: nat)
    requires o.batch > 0 && o.download && !o.sender && IsNew(m) && AlwaysEnds(m, o, ws, FAILURE)
    ensures RoundIs(Rounds(m, o, ws, n), m, o, n)
  {
    hide Pass, RoundIs, AlwaysEnds;
    if n == 0 {
      FirstRound(m, o, ws);
    } else {
      RoundsAre(m, o, ws, n - 1);
      NextRound(Rounds(m, o, ws, n - 1), m, o, ws, n);
    }
  }

  /** A message whose transfer always fails is given up in the end if and only if there is a limit and
      either messages are not filtered again or the limit is 1; and then it has cost exactly 1 + R / 2
      transfers, or two. */
  lemma AloneGivenUpIff(m: Message, o: Options, ws: nat -> Worlds)
    requires o.batch > 0 && o.download && !o.sender && IsNew(m) && AlwaysEnds(m, o, ws, FAILURE)
    ensures (exists n: nat :: Rounds(m, o, ws, n).gaveUp != []) <==>
              o.retryCountMax > 0 && (!o.refilter || o.retryCountMax == 1)
    ensures forall n: nat | Rounds(m, o, ws, n).gaveUp != [] ::
              Rounds(m, o, ws, n).gaveUp[0].tries == if o.refilter then 2 else 1 + o.retryCountMax / 2
    ensures forall n: nat :: Reachable(Rounds(m, o, ws, n), o)
  {
    hide Rounds, AlwaysEnds, Run, CanRun, RoundSteps;
    forall n: nat ensures Reachable(Rounds(m, o, ws, n), o) {
      forall k: nat ensures Rounds(m, o, ws, k).download.ready == [] && Rounds(m, o, ws, k).post.ready == [] {
        RoundsAre(m, o, ws, k);
      }
      RoundsAreRun(m, o, ws, n);
    }
    forall n: nat
      ensures Rounds(m, o, ws, n).gaveUp != [] <==> !StillRetried(o, n)
      ensures Rounds(m, o, ws, n).gaveUp != [] ==>
                Rounds(m, o, ws, n).gaveUp[0].tries == if o.refilter then 2 else 1 + o.retryCountMax / 2
    {
      RoundsAre(m, o, ws, n);
    }
    if o.retryCountMax > 0 && (!o.refilter || o.retryCountMax == 1) {
      assert !StillRetried(o, o.retryCountMax);
      assert Rounds(m, o, ws, o.retryCountMax).gaveUp != [];
    }
  }

  // Publications.

  /** The work of one message that succeeds. */
  lemma SucceedsAlone(f: State, at: Message, o: Options, w: World)
    requires ReachesWork(f, Some(at)) && f.post == Pending([], []) && o.download && !o.sender
    requires Landings(at, o, w, 0) == [SUCCESS]
    ensures var t := AfterWork(f, o, w);
            && t.ok == [Landed(at, SUCCESS).m] && t.failed == [] && t.incoming == [] && t.rejected == []
            && t.download == f.download && t.post == f.post && t.gaveUp == f.gaveUp
  {
    hide Landings, AckAll, DownloadAll, On, Landed;
    OneEntry(at, o, w, SUCCESS);
    assert BumpAll([], false) == [];
    var m := Landed(at, SUCCESS).m;
    var t := Worked(f, o, w);
    assert t.ok == [m] && t.failed == [] && t.incoming == [] && t.rejected == [] && t.download == f.download
           && t.post == f.post && t.gaveUp == f.gaveUp by {
      assert [] + [m] == [m];
    }
    hide Worked;
    assert Refilled(RetriedWork(t, o), o) == RetriedWork(t, o);
  }

  /** A message taken from the post queue, when nothing else is worked on. */
  lemma TakenForPost(f: State, q: Message, o: Options, w: World)
    requires ReachesWork(f, None) && f.post == Pending([q], []) && o.download && !o.sender && o.batch > 0
    ensures var t := AfterWork(f, o, w);
            && t.ok == [q] && t.failed == [] && t.incoming == [] && t.rejected == []
            && t.download == f.download && t.post == Pending([], []) && t.gaveUp == f.gaveUp
  {
    hide AckAll;
    assert DownloadAll([], o, w) == [];
    assert BumpAll([], false) == [];
    assert First(f.post, PostRoom(o.batch, 0)) == [q];
    assert [] + [q] == [q];
  }

  lemma PublishSingle(k: Message, w: World)
    ensures PublishAll([k], w) == [Posted(k, w.publish(0))]
  {
    assert [k][..0] == [];
  }

  /** A publication that fails: counted, and put on the post queue or given up. */
  lemma PublicationFails(t: State, k: Message, o: Options, w: World)
    requires t.ok == [k] && t.failed == [] && t.post == Pending([], []) && o.publishing && !w.publish(0)
    ensures var u, put := AfterPost(t, o, w), Bump(k.(posts := k.posts + 1));
            && u.download == t.download && u.gaveUp == t.gaveUp + (if Spent(put, o) then [put] else [])
            && u.post == Pending([], if Spent(put, o) then [] else [put])
  {
    hide PublishAll, On, Kept, GivenUp, Spent;
    var failed := k.(posts := k.posts + 1);
    PublishSingle(k, w);
    OnSingle(Entry(Failed, failed), Ok);
    OnSingle(Entry(Failed, failed), Failed);
    One(Bump(failed), o);
    assert [] + [failed] == [failed];
    assert BumpAll([failed], false) == [Bump(failed)];
  }

  /** The first pass of a message that is worked on but not published. */
  lemma FirstUnpublished(m: Message, o: Options, ws: Worlds)
    requires o.download && !o.sender && o.publishing && !ws.post.publish(0)
    requires FilterOne(m, o, ws.filter, 0).place == Incoming
    requires Landings(FilterOne(m, o, ws.filter, 0).m, o, ws.work, 0) == [SUCCESS]
    ensures var at := Landed(FilterOne(m, o, ws.filter, 0).m, SUCCESS).m;
            var put := Bump(at.(posts := at.posts + 1));
            var t := Pass(NOTHING, [m], o.batch, o, ws);
            && t.download == Pending([], []) && t.gaveUp == (if Spent(put, o) then [put] else [])
            && t.post == Pending([], if Spent(put, o) then [] else [put])
  {
    hide Gathered, AfterFilter, AfterWork, AfterPost, Landings, FilterOne, Spent, Landed, Bump;
    var f := AfterFilter(Gathered(NOTHING, [m], o.batch, o), o, ws.filter);
    var at := Landed(FilterOne(m, o, ws.filter, 0).m, SUCCESS).m;
    ArrivesAlone(NOTHING, m, o.batch, o, ws.filter);
    SucceedsAlone(f, FilterOne(m, o, ws.filter, 0).m, o, ws.work);
    PublicationFails(AfterWork(f, o, ws.work), at, o, ws.post);
  }

  /** A later pass of it. */
  lemma UnpublishedPass(s: State, q: Message, o: Options, ws: Worlds)
    requires Idle(s) && s.download == Pending([], []) && s.post == Pending([q], [])
    requires o.batch > 0 && o.download && !o.sender && o.publishing && !ws.post.publish(0)
    ensures var put := Bump(q.(posts := q.posts + 1));
            var t := Pass(s, [], o.batch, o, ws);
            && t.download == s.download && t.gaveUp == s.gaveUp + (if Spent(put, o) then [put] else [])
            && t.post == Pending([], if Spent(put, o) then [] else [put])
  {
    hide Gathered, AfterFilter, AfterWork, AfterPost, Spent;
    var f := AfterFilter(Gathered(s, [], o.batch, o), o, ws.filter);
    NothingArrives(s, o.batch, o, ws.filter);
    TakenForPost(f, q, o, ws.work);
    PublicationFails(AfterWork(f, o, ws.work), q, o, ws.post);
  }

  /** Still on the post queue after `n` more passes. */
  predicate StillPosted(o: Options, n: nat) {
    o.retryCountMax <= 0 || n + 1 <= o.retryCountMax
  }

  ghost predicate PostRoundIs(s: State, o: Options, n: nat) {
    && Idle(s) && s.download == Pending([], []) && s.post.ready == []
    && if StillPosted(o, n) then
         && s.gaveUp == [] && |s.post.waiting| == 1
         && s.post.waiting[0].retries == n + 1 && s.post.waiting[0].posts == n + 1
       else s.post.waiting == [] && |s.gaveUp| == 1 && s.gaveUp[0].posts == o.retryCountMax + 1
  }

  ghost predicate NeverPublished(ws: nat -> Worlds) {
    forall n: nat :: !ws(n).post.publish(0)
  }

  lemma {:induction false} PostRoundsAre(m: Message, o: Options, ws: nat -> Worlds, n: nat)
    requires o.batch > 0 && o.download && !o.sender && o.publishing && IsNew(m)
    requires AlwaysEnds(m, o, ws, SUCCESS) && NeverPublished(ws)
    ensures PostRoundIs(Rounds(m, o, ws, n), o, n)
  {
    hide Pass, AlwaysEnds, PostRoundIs, NeverPublished;
    if n == 0 {
      FirstPostRound(m, o, ws);
    } else {
      PostRoundsAre(m, o, ws, n - 1);
      NextPostRound(Rounds(m, o, ws, n - 1), o, ws, n);
    }
  }

  lemma FirstPostRound(m: Message, o: Options, ws: nat -> Worlds)
    requires o.batch > 0 && o.download && !o.sender && o.publishing && IsNew(m)
    requires AlwaysEnds(m, o, ws, SUCCESS) && NeverPublished(ws)
    ensures PostRoundIs(Rounds(m, o, ws, 0), o, 0)
  {
    hide Pass, FilterOne, Landings, AlwaysEnds, Variant;
    FirstPasses(m, o, ws, SUCCESS);
    FirstUnpublished(m, o, ws(0));
    PassIdle(NOTHING, [m], o.batch, o, ws(0));
  }

  lemma NextPostRound(s: State, o: Options, ws: nat -> Worlds, n: nat)
    requires o.batch > 0 && o.download && !o.sender && o.publishing && NeverPublished(ws)
    requires n > 0 && PostRoundIs(s, o, n - 1)
    ensures PostRoundIs(Pass(Turned(s), [], o.batch, o, ws(n)), o, n)
  {
    hide Pass;
    var t := Turned(s);
    PassIdle(t, [], o.batch, o, ws(n));
    if StillPosted(o, n - 1) {
      var q := s.post.waiting[0];
      assert [] + s.post.waiting == [q];
      UnpublishedPass(t, q, o, ws(n));
    } else {
      QuietPass(t, o.batch, o, ws(n));
    }
  }

  /** A message that can never be published is given up in the end if and only if there is a limit,
      with refiltering or without; and then after exactly R + 1 publications. */
  lemma AlonePostGivenUpIff(m: Message, o: Options, ws: nat -> Worlds)
    requires o.batch > 0 && o.download && !o.sender && o.publishing && IsNew(m)
    requires AlwaysEnds(m, o, ws, SUCCESS) && NeverPublished(ws)
    ensures (exists n: nat :: Rounds(m, o, ws, n).gaveUp != []) <==> o.retryCountMax > 0
    ensures forall n: nat | Rounds(m, o, ws, n).gaveUp != [] ::
              Rounds(m, o, ws, n).gaveUp[0].posts == o.retryCountMax + 1
    ensures forall n: nat :: Reachable(Rounds(m, o, ws, n), o)
  {
    hide Rounds, AlwaysEnds, NeverPublished, Run, CanRun, RoundSteps;
    forall n: nat ensures Reachable(Rounds(m, o, ws, n), o) {
      forall k: nat ensures Rounds(m, o, ws, k).download.ready == [] && Rounds(m, o, ws, k).post.ready == [] {
        PostRoundsAre(m, o, ws, k);
      }
      RoundsAreRun(m, o, ws, n);
    }
    forall n: nat
      ensures Rounds(m, o, ws, n).gaveUp != [] <==> !StillPosted(o, n)
      ensures Rounds(m, o, ws, n).gaveUp != [] ==> Rounds(m, o, ws, n).gaveUp[0].posts == o.retryCountMax + 1
    {
      PostRoundsAre(m, o, ws, n);
    }
    if o.retryCountMax > 0 {
      assert !StillPosted(o, o.retryCountMax);
      assert Rounds(m, o, ws, o.retryCountMax).gaveUp != [];
    }
  }

  /** There are such messages: a plain file, unmatched messages accepted, and a world that answers as
      said. */
  lemma EndsWhen(m: Message, o: Options, ws: nat -> Worlds, failing: bool)
    requires IsNew(m) && m.fileOp.None? && m.mtime.None? && !m.newname && !m.content
    requires o.masks == [] && o.acceptUnmatched && o.messageAgeMax == 0 && o.fileSizeMax <= 0
    requires o.inflight == NoInflight && o.attempts >= 1
    requires forall n: nat :: ws(n).filter.fieldsOk(0) && ws(n).filter.dirSet(0)
    requires forall n: nat :: ws(n).work.dirThere(0) && ws(n).work.enter(0) && !ws(n).work.fileThere(0)
    requires forall n: nat, a: int :: ws(n).work.fetch(0, a) == if failing then NotYet else Done
    ensures AlwaysEnds(m, o, ws, if failing then FAILURE else SUCCESS)
  {
    forall n: nat, k: Message | Variant(k, m)
      ensures Passes(k, m, o, ws(n).filter)
      ensures k.newDir ==> Landings(k, o, ws(n).work, 0) == [if failing then FAILURE else SUCCESS]
    {
      assert k.fileOp == m.fileOp && k.mtime == m.mtime && k.newname == m.newname && k.content == m.content;
      PlainPasses(k, m, o, ws(n).filter);
      if k.newDir {
        PlainEnds(k, o, ws(n).work, failing);
      }
      hide Passes, Landings, Variant;
    }
  }

  lemma PlainPasses(k: Message, m: Message, o: Options, w: World)
    requires Variant(k, m) && k.fileOp.None? && k.mtime.None?
    requires o.masks == [] && o.acceptUnmatched && o.messageAgeMax == 0 && w.fieldsOk(0) && w.dirSet(0)
    ensures Passes(k, m, o, w)
  {
    assert MaskFrom(o, w, 0, 0) == None;
    assert ByMask(k, o, w, 0) == Take(k, w, 0);
  }

  lemma PlainEnds(k: Message, o: Options, w: World, failing: bool)
    requires k.fileOp.None? && !k.newname && !k.content && k.newDir
    requires o.fileSizeMax <= 0 && o.inflight == NoInflight && o.attempts >= 1
    requires w.dirThere(0) && w.enter(0) && !w.fileThere(0)
    requires forall a: int :: w.fetch(0, a) == if failing then NotYet else Done
    ensures Landings(k, o, w, 0) == [if failing then FAILURE else SUCCESS]
  {
    FetchAlways(o, w, 1, failing);
    assert Before(k, o, w, 0) == None;
  }

  lemma {:induction false} FetchAlways(o: Options, w: World, a: int, failing: bool)
    requires (forall b: int :: w.fetch(0, b) == if failing then NotYet else Done) && a <= o.attempts + 1
    ensures FetchFrom(o, w, 0, a) == if failing || a > o.attempts then FAILURE else SUCCESS
    decreases o.attempts - a
  {
    if a <= o.attempts && failing {
      FetchAlways(o, w, a + 1, failing);
    }
  }

  // The same message in a quiet flow and in a busy one.

  const NEVER: nat -> Worlds := k => Worlds(Ends.NO_LUCK, Ends.NO_LUCK, Ends.NO_LUCK)

  lemma PlainFails(limit: int)
    ensures var m, o := Ends.PlainFile(0), Ends.Plain(limit);
            o.batch > 0 && o.download && !o.sender && IsNew(m) && AlwaysEnds(m, o, NEVER, FAILURE)
  {
    hide AlwaysEnds;
    EndsWhen(Ends.PlainFile(0), Ends.Plain(limit), NEVER, true);
  }

  lemma FirstTurn(m: Message, o: Options, ws: nat -> Worlds)
    requires o.batch > 0 && o.download && !o.sender && IsNew(m) && AlwaysEnds(m, o, ws, FAILURE)
    ensures var s := Turned(Rounds(m, o, ws, 0));
            Idle(s) && Reachable(s, o) && |s.download.ready| == 1 && s.download.ready[0].id == m.id
  {
    hide Rounds, AlwaysEnds, Run, CanRun;
    AloneGivenUpIff(m, o, ws);
    RoundsAre(m, o, ws, 0);
    var r := Rounds(m, o, ws, 0);
    TurnReachable(r, o);
    assert Turned(r).download.ready == r.download.waiting by { assert [] + r.download.waiting == r.download.waiting; }
  }

  /** A plain file whose transfers fail, with a batch of 2 and some limit: in a flow of its own it is
      given up in the end; but once two new messages arrive in every pass, it waits through any number
      of passes. */
  lemma BusyOrQuiet(limit: int, n: nat)
    requires limit > 0
    ensures var m, o := Ends.PlainFile(0), Ends.Plain(limit);
            var s, steps := Turned(Rounds(m, o, NEVER, 0)), Ends.TwosArrive(0, n);
            && (exists k: nat :: Rounds(m, o, NEVER, k).gaveUp != [])
            && Reachable(s, o) && |s.download.ready| == 1 && s.download.ready[0].id == m.id
            && CanRun(s, steps, o) && Run(s, steps, o).download.ready == s.download.ready
  {
    var m, o := Ends.PlainFile(0), Ends.Plain(limit);
    assert o.retryCountMax > 0 && !o.refilter;
    hide *;
    PlainFails(limit);
    AloneGivenUpIff(m, o, NEVER);
    FirstTurn(m, o, NEVER);
    Ends.BusyForever(Turned(Rounds(m, o, NEVER, 0)), 0, limit, n);
  }

  lemma TurnReachable(s: State, o: Options)
    requires Reachable(s, o) && s.download.ready == [] && s.post.ready == []
    ensures Reachable(Turned(s), o)
  {
    var steps :| CanRun(NOTHING, steps, o) && Run(NOTHING, steps, o) == s;
    var turn := Housekeeping(Some(s.download.waiting), Some(s.post.waiting));
    hide CanRun, Run;
    TurnIsStep(s, o);
    RunNil(Turned(s), o);
    RunCons(s, turn, [], o);
    assert [turn] + [] == [turn];
    RunConcat(NOTHING, steps, [turn], o);
  }
}
