/** The plugin that holds every message for a while, so that only the latest version of a file
    published in the meantime is forwarded. */
module MDelayLatest {
  import opened Sequences

  datatype Message = Message(id: nat, relPath: string, pubTime: int, hasFileOp: bool)

  /** The messages of one path, in order. */
  function On(ms: seq<Message>, p: string): seq<Message> {
    if ms == [] then []
    else
      var init, m := ms[..|ms| - 1], ms[|ms| - 1];
      if m.relPath == p then On(init, p) + [m] else On(init, p)
  }

  predicate IsYoung(m: Message, now: int, mdelay: int) {
    now - m.pubTime < mdelay
  }

  /** Operations other than a plain update must not be skipped, before or after. */
  predicate MustKeep(held: Message, next: Message) {
    held.hasFileOp || next.hasFileOp
  }

  // What the arrival of `m` does to the delayed messages.

  function Replaced(delay: seq<Message>, m: Message): (r: seq<Message>)
    ensures |r| == |delay|
  {
    seq(|delay|, i requires 0 <= i < |delay| => if delay[i].relPath == m.relPath then m else delay[i])
  }

  function Displaced(delay: seq<Message>, m: Message, keep: bool): seq<Message> {
    if delay == [] then []
    else
      var front, h := Displaced(delay[..|delay| - 1], m, keep), delay[|delay| - 1];
      if h.relPath == m.relPath && MustKeep(h, m) == keep then front + [h] else front
  }

  predicate IsDelayed(delay: seq<Message>, p: string) {
    exists i :: 0 <= i < |delay| && delay[i].relPath == p
  }

  /** The messages forwarded, delayed and rejected while a batch is processed. */
  datatype Progress = Progress(out: seq<Message>, delay: seq<Message>, rejected: seq<Message>)

  function Arrive(s: Progress, m: Message, now: int, mdelay: int): Progress {
    var wait := IsDelayed(s.delay, m.relPath);
    var young := IsYoung(m, now, mdelay);
    Progress(
      s.out + Displaced(s.delay, m, true) + (if !wait && !young then [m] else []),
      Replaced(s.delay, m) + (if !wait && young then [m] else []),
      s.rejected + Displaced(s.delay, m, false))
  }

  function ArriveAll(s: Progress, ms: seq<Message>, now: int, mdelay: int): Progress {
    if ms == [] then s
    else Arrive(ArriveAll(s, ms[..|ms| - 1], now, mdelay), ms[|ms| - 1], now, mdelay)
  }

  /** The delayed messages that are due, or not yet; the clock is read again for each. */
  function Due(delay: seq<Message>, clock: nat -> int, mdelay: int, due: bool): seq<Message> {
    if delay == [] then []
    else
      var n := |delay| - 1;
      var front := Due(delay[..n], clock, mdelay, due);
      if IsYoung(delay[n], clock(n), mdelay) != due then front + [delay[n]] else front
  }

  /** One call: the batch, the clock readings, and whether a stop was requested. */
  datatype Batch = Batch(incoming: seq<Message>, now: int, clock: nat -> int, stop: bool)

  /** Everything that arrived and was forwarded, what is delayed, and everything rejected. */
  datatype State = State(arrived: seq<Message>, out: seq<Message>, delay: seq<Message>, rejected: seq<Message>)

  function Accept(s: State, b: Batch, mdelay: int): State {
    var a := ArriveAll(Progress([], s.delay, []), b.incoming, b.now, mdelay);
    var due, rest := Due(a.delay, b.clock, mdelay, true), Due(a.delay, b.clock, mdelay, false);
    State(s.arrived + b.incoming,
          s.out + (a.out + due + if b.stop then rest else []),
          if b.stop then [] else rest,
          s.rejected + a.rejected)
  }

  class Worklist {
    var incoming: seq<Message>
    var rejected: seq<Message>
  }

  class Plugin {
    var okDelay: seq<Message>
    var suppressions: nat
    var stopRequested: bool
    const mdelay: int

    /** The inner loop: the new message against every delayed one. */
    method Compare(m1: Message, newIncoming: seq<Message>, worklist: Worklist)
      returns (newIncoming': seq<Message>, wait: bool)
      modifies this`okDelay, this`suppressions, worklist`rejected
      ensures wait <==> IsDelayed(old(okDelay), m1.relPath)
      ensures okDelay == Replaced(old(okDelay), m1)
      ensures newIncoming' == newIncoming + Displaced(old(okDelay), m1, true)
      ensures worklist.rejected == old(worklist.rejected) + Displaced(old(okDelay), m1, false)
      ensures suppressions == old(suppressions) + |Displaced(old(okDelay), m1, false)|
    {
      var newOkDelay: seq<Message> := [];
      newIncoming', wait := newIncoming, false;
      var i := 0;
      while i < |okDelay|
        invariant 0 <= i <= |okDelay| && okDelay == old(okDelay)
        invariant newOkDelay == Replaced(okDelay, m1)[..i]
        invariant wait <==> IsDelayed(okDelay[..i], m1.relPath)
        invariant newIncoming' == newIncoming + Displaced(okDelay[..i], m1, true)
        invariant worklist.rejected == old(worklist.rejected) + Displaced(okDelay[..i], m1, false)
        invariant suppressions == old(suppressions) + |Displaced(okDelay[..i], m1, false)|
      {
        var m2 := okDelay[i];
        assert okDelay[..i + 1][..i] == okDelay[..i];
        assert IsDelayed(okDelay[..i + 1], m1.relPath) <==>
               IsDelayed(okDelay[..i], m1.relPath) || m2.relPath == m1.relPath by {
          assert okDelay[..i + 1][i] == m2;
          assert forall j | 0 <= j < i :: okDelay[..i + 1][j] == okDelay[..i][j];
        }
        assert okDelay[..i + 1][i] == m2;
        if m1.relPath == m2.relPath {
          if m2.hasFileOp || m1.hasFileOp {
            newIncoming' := newIncoming' + [m2];
          } else {
            suppressions := suppressions + 1;
            worklist.rejected := worklist.rejected + [m2];
          }
          newOkDelay := newOkDelay + [m1];
          wait := true;
        } else {
          newOkDelay := newOkDelay + [m2];
        }
        i := i + 1;
      }
      assert okDelay[..i] == okDelay;
      okDelay := newOkDelay;
    }

    method AfterAccept(worklist: Worklist, now: int, clock: nat -> int)
      modifies this`okDelay, this`suppressions, worklist
      ensures var s := Accept(State([], [], old(okDelay), old(worklist.rejected)),
                              Batch(old(worklist.incoming), now, clock, stopRequested), mdelay);
              worklist.incoming == s.out && okDelay == s.delay && worklist.rejected == s.rejected
      ensures stopRequested ==> okDelay == []
    {
      hide Due, Displaced, Replaced, IsDelayed;
      ghost var start := Progress([], okDelay, []);
      ghost var wasRejected := worklist.rejected;
      var newIncoming: seq<Message> := [];
      var i := 0;
      assert wasRejected + [] == wasRejected;
      while i < |worklist.incoming|
        invariant 0 <= i <= |worklist.incoming| && worklist.incoming == old(worklist.incoming)
        invariant var a := ArriveAll(start, worklist.incoming[..i], now, mdelay);
                  && newIncoming == a.out && okDelay == a.delay
                  && worklist.rejected == wasRejected + a.rejected
      {
        var m1 := worklist.incoming[i];
        assert worklist.incoming[..i + 1][..i] == worklist.incoming[..i];
        ghost var a := ArriveAll(start, worklist.incoming[..i], now, mdelay);
        var wait: bool;
        newIncoming, wait := Compare(m1, newIncoming, worklist);
        if !wait && now - m1.pubTime < mdelay {
          okDelay := okDelay + [m1];
        } else if wait {
        } else {
          newIncoming := newIncoming + [m1];
        }
        assert (wasRejected + a.rejected) + Displaced(a.delay, m1, false)
            == wasRejected + (a.rejected + Displaced(a.delay, m1, false));
        i := i + 1;
      }
      assert worklist.incoming[..i] == worklist.incoming;
      worklist.incoming := newIncoming;
      Flush(worklist, clock);
      if stopRequested {
        worklist.incoming := worklist.incoming + okDelay;
        okDelay := [];
      }
    }

    /** The final loop: messages that are due go out, the others stay. */
    method Flush(worklist: Worklist, clock: nat -> int)
      modifies this`okDelay, worklist`incoming
      ensures worklist.incoming == old(worklist.incoming) + Due(old(okDelay), clock, mdelay, true)
      ensures okDelay == Due(old(okDelay), clock, mdelay, false)
    {
      var newOkDelay: seq<Message> := [];
      var i := 0;
      while i < |okDelay|
        invariant 0 <= i <= |okDelay| && okDelay == old(okDelay)
        invariant worklist.incoming == old(worklist.incoming) + Due(okDelay[..i], clock, mdelay, true)
        invariant newOkDelay == Due(okDelay[..i], clock, mdelay, false)
      {
        assert okDelay[..i + 1][..i] == okDelay[..i];
        if clock(i) - okDelay[i].pubTime >= mdelay {
          worklist.incoming := worklist.incoming + [okDelay[i]];
        } else {
          newOkDelay := newOkDelay + [okDelay[i]];
        }
        i := i + 1;
      }
      assert okDelay[..i] == okDelay;
      okDelay := newOkDelay;
    }
  }

  // The life of one path: at most one message is held.

  datatype Lane = Lane(arrived: seq<Message>, out: seq<Message>, held: seq<Message>, rejected: seq<Message>)

  /** What the arrival of `m` sends out, holds and rejects, given what is held. */
  function SentBy(held: seq<Message>, m: Message, young: bool): seq<Message> {
    if held == [] then if young then [] else [m]
    else if MustKeep(held[0], m) then held else []
  }

  function HeldBy(held: seq<Message>, m: Message, young: bool): seq<Message> {
    if held == [] && !young then [] else [m]
  }

  function RejectedBy(held: seq<Message>, m: Message): seq<Message> {
    if held != [] && !MustKeep(held[0], m) then held else []
  }

  function LaneArrive(l: Lane, m: Message, young: bool): Lane {
    Lane(l.arrived + [m],
         l.out + SentBy(l.held, m, young),
         HeldBy(l.held, m, young),
         l.rejected + RejectedBy(l.held, m))
  }

  function LaneRelease(l: Lane): Lane {
    l.(out := l.out + l.held, held := [])
  }

  /** What left or is held is an order-preserving subsequence of what arrived, and the latest
      arrival is the last message out or the one held. */
  ghost predicate LaneOrdered(l: Lane) {
    var kept := l.out + l.held;
    && |l.held| <= 1
    && IsSubseq(kept, l.arrived)
    && (l.arrived != [] ==> kept != [] && kept[|kept| - 1] == l.arrived[|l.arrived| - 1])
  }

  /** Nothing is lost or doubled. */
  ghost predicate LaneCounts(l: Lane) {
    multiset(l.arrived) == multiset(l.out) + multiset(l.held) + multiset(l.rejected)
  }

  /** Only a plain update directly followed by a plain update is rejected. */
  ghost predicate LaneRejects(l: Lane) {
    forall r | r in l.rejected :: Superseded(r, l.arrived)
  }

  ghost predicate LaneOk(l: Lane) {
    LaneOrdered(l) && LaneCounts(l) && LaneRejects(l)
  }

  ghost predicate Superseded(r: Message, arrived: seq<Message>) {
    exists i :: 0 <= i < |arrived| - 1 && arrived[i] == r && !r.hasFileOp && !arrived[i + 1].hasFileOp
  }

  lemma SupersededLater(r: Message, arrived: seq<Message>, m: Message)
    requires Superseded(r, arrived)
    ensures Superseded(r, arrived + [m])
  {
    var i :| 0 <= i < |arrived| - 1 && arrived[i] == r && !r.hasFileOp && !arrived[i + 1].hasFileOp;
    var later := arrived + [m];
    assert later[i] == r && later[i + 1] == arrived[i + 1];
  }

  lemma LaneArriveOrdered(l: Lane, m: Message, young: bool)
    requires LaneOrdered(l)
    ensures LaneOrdered(LaneArrive(l, m, young))
  {
    var l', kept := LaneArrive(l, m, young), l.out + l.held;
    if l.held == [] || MustKeep(l.held[0], m) {
      SubseqSnoc(kept, l.arrived, m);
      assert l'.out + l'.held == kept + [m];
    } else {
      SubseqPrefix(l.out, l.held, l.arrived);
      SubseqSnoc(l.out, l.arrived, m);
      assert l'.out + l'.held == l.out + [m];
    }
  }

  lemma LaneArriveCounts(l: Lane, m: Message, young: bool)
    requires LaneCounts(l)
    ensures LaneCounts(LaneArrive(l, m, young)) || |l.held| > 1
  {
    var l' := LaneArrive(l, m, young);
    assert multiset(l'.arrived) == multiset(l.arrived) + multiset{m};
  }

  lemma LaneArriveRejects(l: Lane, m: Message, young: bool)
    requires LaneRejects(l) && LaneOrdered(l)
    ensures LaneRejects(LaneArrive(l, m, young))
  {
    var l' := LaneArrive(l, m, young);
    forall r | r in l'.rejected ensures Superseded(r, l'.arrived) {
      if r in l.rejected {
        SupersededLater(r, l.arrived, m);
      } else {
        var n, kept := |l.arrived| - 1, l.out + l.held;
        assert r == l.held[0] == kept[|kept| - 1];
        if l.arrived == [] {
          SubseqMember(kept, l.arrived, r);
        }
        assert l'.arrived[n] == r && l'.arrived[n + 1] == m;
      }
    }
  }

  lemma LaneArriveOk(l: Lane, m: Message, young: bool)
    requires LaneOk(l)
    ensures LaneOk(LaneArrive(l, m, young))
  {
    LaneArriveOrdered(l, m, young);
    LaneArriveCounts(l, m, young);
    LaneArriveRejects(l, m, young);
  }

  lemma LaneReleaseOk(l: Lane)
    requires LaneOk(l)
    ensures LaneOk(LaneRelease(l))
  {
    assert (l.out + l.held) + [] == l.out + l.held;
  }

  // The lists, seen path by path.

  ghost predicate Unique(delay: seq<Message>) {
    forall i, j | 0 <= i < j < |delay| :: delay[i].relPath != delay[j].relPath
  }

  lemma {:induction false} OnConcat(a: seq<Message>, b: seq<Message>, p: string)
    ensures On(a + b, p) == On(a, p) + On(b, p)
    decreases |b|
  {
    if b == [] {
      assert a + b == a;
    } else {
      var n := |b| - 1;
      assert (a + b)[..|a + b| - 1] == a + b[..n];
      OnConcat(a, b[..n], p);
    }
  }

  lemma OnConcat2(a: seq<Message>, b: seq<Message>, c: seq<Message>, p: string)
    ensures On(a + (b + c), p) == On(a + b, p) + On(c, p)
  {
    assert a + (b + c) == (a + b) + c;
    OnConcat(a + b, c, p);
  }

  lemma OnConcat3(a: seq<Message>, b: seq<Message>, c: seq<Message>, d: seq<Message>, p: string)
    ensures On(a + (b + c + d), p) == On(a + b, p) + (On(c, p) + On(d, p))
  {
    assert a + (b + c + d) == (a + b) + (c + d);
    OnConcat(a + b, c + d, p);
    OnConcat(c, d, p);
  }

  lemma OnOne(m: Message, p: string)
    ensures On([m], p) == if m.relPath == p then [m] else []
  {
    assert [m][..0] == [];
  }

  lemma {:induction false} OnUnique(delay: seq<Message>, p: string)
    requires Unique(delay)
    ensures |On(delay, p)| <= 1
    ensures On(delay, p) != [] <==> IsDelayed(delay, p)
    ensures On(delay, p) != [] ==> On(delay, p)[0].relPath == p
  {
    if delay != [] {
      var n := |delay| - 1;
      var init := delay[..n];
      OnUnique(init, p);
      assert IsDelayed(delay, p) <==> IsDelayed(init, p) || delay[n].relPath == p by {
        assert forall j | 0 <= j < n :: init[j] == delay[j];
      }
    }
  }

  lemma ReplacedUnique(delay: seq<Message>, m: Message)
    requires Unique(delay)
    ensures Unique(Replaced(delay, m))
  {
    var r := Replaced(delay, m);
    assert forall i | 0 <= i < |r| :: r[i].relPath == delay[i].relPath;
  }

  lemma {:induction false} OnReplaced(delay: seq<Message>, m: Message, p: string)
    requires Unique(delay)
    ensures On(Replaced(delay, m), p)
         == if p != m.relPath then On(delay, p) else if On(delay, p) == [] then [] else [m]
  {
    if delay != [] {
      var n := |delay| - 1;
      var init, h := delay[..n], delay[n];
      OnReplaced(init, m, p);
      assert Replaced(delay, m)[..n] == Replaced(init, m);
      OnUnique(delay, p);
      OnUnique(init, p);
      hide Unique, Replaced;
      if h.relPath == p {
        assert On(init, p) == [];
      }
    }
  }

  lemma {:induction false} OnDisplaced(delay: seq<Message>, m: Message, keep: bool, p: string)
    requires Unique(delay)
    ensures On(Displaced(delay, m, keep), p)
         == if p == m.relPath && On(delay, p) != [] && MustKeep(On(delay, p)[0], m) == keep
            then On(delay, p) else []
  {
    hide MustKeep;
    if delay != [] {
      var n := |delay| - 1;
      var h := delay[n];
      assert Unique(delay[..n]);
      hide Unique;
      OnDisplaced(delay[..n], m, keep, p);
      OnUnique(delay, p);
      OnUnique(delay[..n], p);
      OnConcat(Displaced(delay[..n], m, keep), [h], p);
      OnOne(h, p);
    }
  }

  function View(s: State, p: string): Lane {
    Lane(On(s.arrived, p), On(s.out, p), On(s.delay, p), On(s.rejected, p))
  }

  /** The state in the middle of a batch. */
  function During(s: State, ms: seq<Message>, a: Progress): State {
    State(s.arrived + ms, s.out + a.out, a.delay, s.rejected + a.rejected)
  }

  /** For one path, the part of each list that an arrival adds. */
  lemma ArriveOut(out: seq<Message>, a: Progress, m: Message, now: int, mdelay: int, p: string)
    requires Unique(a.delay)
    ensures On(out + Arrive(a, m, now, mdelay).out, p)
         == On(out + a.out, p)
            + if p == m.relPath then SentBy(On(a.delay, p), m, IsYoung(m, now, mdelay)) else []
  {
    var wait, young := IsDelayed(a.delay, m.relPath), IsYoung(m, now, mdelay);
    var front := Displaced(a.delay, m, true);
    var extra := if !wait && !young then [m] else [];
    OnUnique(a.delay, m.relPath);
    assert On([], p) == [];
    hide On, Displaced, Unique, MustKeep, IsYoung, Replaced;
    OnDisplaced(a.delay, m, true, p);
    OnOne(m, p);
    OnConcat3(out, a.out, front, extra, p);
    hide IsDelayed;
    assert On(front, p) + [] == On(front, p);
    assert [] + On(extra, p) == On(extra, p);
  }

  lemma ArriveDelay(a: Progress, m: Message, now: int, mdelay: int, p: string)
    requires Unique(a.delay)
    ensures On(Arrive(a, m, now, mdelay).delay, p)
         == if p == m.relPath then HeldBy(On(a.delay, p), m, IsYoung(m, now, mdelay)) else On(a.delay, p)
  {
    var wait, young := IsDelayed(a.delay, m.relPath), IsYoung(m, now, mdelay);
    var delayed := if !wait && young then [m] else [];
    OnUnique(a.delay, m.relPath);
    OnReplaced(a.delay, m, p);
    OnOne(m, p);
    assert On([], p) == [];
    OnConcat(Replaced(a.delay, m), delayed, p);
    hide On, Replaced, Unique, IsDelayed;
  }

  lemma ArriveRejected(rejected: seq<Message>, a: Progress, m: Message, now: int, mdelay: int, p: string)
    requires Unique(a.delay)
    ensures On(rejected + Arrive(a, m, now, mdelay).rejected, p)
         == On(rejected + a.rejected, p)
            + if p == m.relPath then RejectedBy(On(a.delay, p), m) else []
  {
    var back := Displaced(a.delay, m, false);
    OnDisplaced(a.delay, m, false, p);
    OnConcat2(rejected, a.rejected, back, p);
    hide On, Displaced, Unique, MustKeep, IsYoung, IsDelayed;
  }

  lemma ArriveArrived(arrived: seq<Message>, ms: seq<Message>, m: Message, p: string)
    ensures On(arrived + (ms + [m]), p) == On(arrived + ms, p) + if m.relPath == p then [m] else []
  {
    OnConcat2(arrived, ms, [m], p);
    OnOne(m, p);
  }

  /** The arrival of a message is, for its path, one step of that path's life, and does not
      concern any other path. */
  lemma ArriveIsLane(s: State, ms: seq<Message>, a: Progress, m: Message, now: int, mdelay: int, p: string)
    requires Unique(a.delay)
    ensures View(During(s, ms + [m], Arrive(a, m, now, mdelay)), p)
         == if m.relPath == p then LaneArrive(View(During(s, ms, a), p), m, IsYoung(m, now, mdelay))
            else View(During(s, ms, a), p)
  {
    ArriveArrived(s.arrived, ms, m, p);
    ArriveOut(s.out, a, m, now, mdelay, p);
    ArriveDelay(a, m, now, mdelay, p);
    ArriveRejected(s.rejected, a, m, now, mdelay, p);
    var l := View(During(s, ms, a), p);
    hide On, Arrive, Unique, SentBy, HeldBy, RejectedBy, IsYoung;
    if m.relPath != p {
      assert l.arrived + [] == l.arrived && l.out + [] == l.out && l.rejected + [] == l.rejected;
    }
  }

  lemma ArriveUnique(a: Progress, m: Message, now: int, mdelay: int)
    requires Unique(a.delay)
    ensures Unique(Arrive(a, m, now, mdelay).delay)
  {
    ReplacedUnique(a.delay, m);
    var r := Replaced(a.delay, m);
    if !IsDelayed(a.delay, m.relPath) {
      forall i | 0 <= i < |r| ensures r[i].relPath != m.relPath {
        assert a.delay[i].relPath != m.relPath;
      }
    }
  }

  lemma DuringStart(s: State)
    ensures During(s, [], Progress([], s.delay, [])) == s
  {
    assert s.arrived + [] == s.arrived && s.out + [] == s.out && s.rejected + [] == s.rejected;
  }

  lemma ArriveOk(s: State, ms: seq<Message>, a: Progress, m: Message, now: int, mdelay: int, p: string)
    requires Unique(a.delay) && LaneOk(View(During(s, ms, a), p))
    ensures var a' := Arrive(a, m, now, mdelay);
            Unique(a'.delay) && LaneOk(View(During(s, ms + [m], a'), p))
  {
    ArriveUnique(a, m, now, mdelay);
    ArriveIsLane(s, ms, a, m, now, mdelay, p);
    LaneArriveOk(View(During(s, ms, a), p), m, IsYoung(m, now, mdelay));
    hide LaneOk, View, Arrive, LaneArrive, Unique, During, IsYoung;
  }

  lemma {:induction false} ArriveAllOk(s: State, ms: seq<Message>, now: int, mdelay: int, p: string)
    requires Unique(s.delay) && LaneOk(View(s, p))
    ensures var a := ArriveAll(Progress([], s.delay, []), ms, now, mdelay);
            Unique(a.delay) && LaneOk(View(During(s, ms, a), p))
  {
    hide LaneOk, View, Unique, During, Arrive;
    if ms == [] {
      DuringStart(s);
    } else {
      var init, m := ms[..|ms| - 1], ms[|ms| - 1];
      ArriveAllOk(s, init, now, mdelay, p);
      ArriveOk(s, init, ArriveAll(Progress([], s.delay, []), init, now, mdelay), m, now, mdelay, p);
      assert init + [m] == ms;
    }
  }

  lemma {:induction false} DueMembers(delay: seq<Message>, clock: nat -> int, mdelay: int, due: bool)
    ensures forall m | m in Due(delay, clock, mdelay, due) :: m in delay
  {
    if delay != [] {
      var init := delay[..|delay| - 1];
      DueMembers(init, clock, mdelay, due);
      assert forall m | m in init :: m in delay;
    }
  }

  lemma {:induction false} DueUnique(delay: seq<Message>, clock: nat -> int, mdelay: int)
    requires Unique(delay)
    ensures Unique(Due(delay, clock, mdelay, false))
  {
    if delay != [] {
      var n := |delay| - 1;
      var init, h := delay[..n], delay[n];
      DueUnique(init, clock, mdelay);
      DueMembers(init, clock, mdelay, false);
      var rest := Due(init, clock, mdelay, false);
      forall i | 0 <= i < |rest| ensures rest[i].relPath != h.relPath {
        assert rest[i] in init;
      }
    }
  }

  lemma {:induction false} OnDue(delay: seq<Message>, clock: nat -> int, mdelay: int, p: string)
    requires Unique(delay)
    ensures var due, rest := On(Due(delay, clock, mdelay, true), p), On(Due(delay, clock, mdelay, false), p);
            (due == On(delay, p) && rest == []) || (due == [] && rest == On(delay, p))
  {
    if delay != [] {
      var n := |delay| - 1;
      var init, h := delay[..n], delay[n];
      OnDue(init, clock, mdelay, p);
      OnUnique(delay, p);
      OnUnique(init, p);
      var due, rest := Due(init, clock, mdelay, true), Due(init, clock, mdelay, false);
      assert (due + [h])[..|due|] == due && (rest + [h])[..|rest|] == rest;
      hide Unique, IsDelayed, IsYoung;
    }
  }

  /** The end of a batch: for each path, what is held goes out, or everything stays. */
  lemma AcceptIsRelease(s: State, b: Batch, mdelay: int, p: string)
    requires var a := ArriveAll(Progress([], s.delay, []), b.incoming, b.now, mdelay); Unique(a.delay)
    ensures var a := ArriveAll(Progress([], s.delay, []), b.incoming, b.now, mdelay);
            var l, l' := View(During(s, b.incoming, a), p), View(Accept(s, b, mdelay), p);
            l' == l || l' == LaneRelease(l)
  {
    var a := ArriveAll(Progress([], s.delay, []), b.incoming, b.now, mdelay);
    var due, rest := Due(a.delay, b.clock, mdelay, true), Due(a.delay, b.clock, mdelay, false);
    OnDue(a.delay, b.clock, mdelay, p);
    var last := if b.stop then rest else [];
    OnConcat3(s.out, a.out, due, last, p);
    assert On([], p) == [];
    hide On, Due, ArriveAll, Unique;
    var l := View(During(s, b.incoming, a), p);
    assert [] + l.held == l.held && l.held + [] == l.held && l.out + ([] + []) == l.out;
  }

  lemma AcceptOk(s: State, b: Batch, mdelay: int, p: string)
    requires Unique(s.delay) && LaneOk(View(s, p))
    ensures Unique(Accept(s, b, mdelay).delay) && LaneOk(View(Accept(s, b, mdelay), p))
  {
    ArriveAllOk(s, b.incoming, b.now, mdelay, p);
    var a := ArriveAll(Progress([], s.delay, []), b.incoming, b.now, mdelay);
    DueUnique(a.delay, b.clock, mdelay);
    AcceptIsRelease(s, b, mdelay, p);
    LaneReleaseOk(View(During(s, b.incoming, a), p));
    hide View, LaneOk, ArriveAll, Due, During, LaneRelease;
  }

  ghost function Run(s: State, batches: seq<Batch>, mdelay: int): State
    decreases |batches|
  {
    if batches == [] then s else Run(Accept(s, batches[0], mdelay), batches[1..], mdelay)
  }

  lemma {:induction false} RunOk(s: State, batches: seq<Batch>, mdelay: int, p: string)
    requires Unique(s.delay) && LaneOk(View(s, p))
    ensures Unique(Run(s, batches, mdelay).delay) && LaneOk(View(Run(s, batches, mdelay), p))
    decreases |batches|
  {
    if batches != [] {
      AcceptOk(s, batches[0], mdelay, p);
      hide Unique, LaneOk, Accept, View;
      RunOk(Accept(s, batches[0], mdelay), batches[1..], mdelay, p);
    }
  }

  lemma {:induction false} CountOn(ms: seq<Message>, p: string, x: Message)
    ensures multiset(On(ms, p))[x] == if x.relPath == p then multiset(ms)[x] else 0
  {
    if ms != [] {
      var n := |ms| - 1;
      CountOn(ms[..n], p, x);
      assert ms == ms[..n] + [ms[n]];
    }
  }

  const START := State([], [], [], [])

  /** Over every sequence of batches, for every path: what was forwarded, then what is held, keeps
      the order of arrival and ends with the latest arrival; what was rejected was a plain update
      directly followed by another; and at most one message is held. */
  lemma LatestWins(batches: seq<Batch>, mdelay: int, p: string)
    ensures LaneOk(View(Run(START, batches, mdelay), p))
    ensures Unique(Run(START, batches, mdelay).delay)
  {
    RunOk(START, batches, mdelay, p);
  }

  /** Over every sequence of batches nothing is lost or doubled, and after a stop nothing stays. */
  lemma DelayConserves(batches: seq<Batch>, mdelay: int)
    ensures var s := Run(START, batches, mdelay);
            multiset(s.arrived) == multiset(s.out) + multiset(s.delay) + multiset(s.rejected)
    ensures forall b: Batch | b.stop :: Accept(Run(START, batches, mdelay), b, mdelay).delay == []
  {
    var s := Run(START, batches, mdelay);
    forall x: Message
      ensures multiset(s.arrived)[x] == (multiset(s.out) + multiset(s.delay) + multiset(s.rejected))[x]
    {
      var p := x.relPath;
      LatestWins(batches, mdelay, p);
      CountOn(s.arrived, p, x);
      CountOn(s.out, p, x);
      CountOn(s.delay, p, x);
      CountOn(s.rejected, p, x);
      var l := View(s, p);
      assert multiset(l.arrived)[x] == (multiset(l.out) + multiset(l.held) + multiset(l.rejected))[x];
    }
  }

  // How old messages are when they are forwarded.

  lemma {:induction false} DisplacedIs(delay: seq<Message>, m: Message, keep: bool, x: Message)
    ensures x in Displaced(delay, m, keep) <==> x in delay && x.relPath == m.relPath && MustKeep(x, m) == keep
  {
    if delay != [] {
      var n := |delay| - 1;
      DisplacedIs(delay[..n], m, keep, x);
      assert x in delay <==> x in delay[..n] || x == delay[n] by {
        assert delay == delay[..n] + [delay[n]];
      }
    }
  }

  ghost function Before(s: State, b: Batch, mdelay: int, k: nat): Progress
    requires k <= |b.incoming|
  {
    ArriveAll(Progress([], s.delay, []), b.incoming[..k], b.now, mdelay)
  }

  /** `x` was held when `b.incoming[k]` came, for the same path, and one of the two carries a file
      operation. */
  ghost predicate PushedOutBy(s: State, b: Batch, mdelay: int, x: Message, k: nat)
    requires k < |b.incoming|
  {
    x in Before(s, b, mdelay, k).delay && x.relPath == b.incoming[k].relPath && MustKeep(x, b.incoming[k])
  }

  ghost predicate PushedOut(s: State, b: Batch, mdelay: int, x: Message, n: nat)
    requires n <= |b.incoming|
  {
    exists k: nat :: k < n && PushedOutBy(s, b, mdelay, x, k)
  }

  lemma BeforeStep(s: State, b: Batch, mdelay: int, n: nat)
    requires n < |b.incoming|
    ensures Before(s, b, mdelay, n + 1) == Arrive(Before(s, b, mdelay, n), b.incoming[n], b.now, mdelay)
  {
    hide Arrive;
    assert b.incoming[..n + 1][..n] == b.incoming[..n];
  }

  lemma PushedOutStep(s: State, b: Batch, mdelay: int, x: Message, n: nat)
    requires n < |b.incoming|
    ensures PushedOut(s, b, mdelay, x, n + 1) <==> PushedOut(s, b, mdelay, x, n) || PushedOutBy(s, b, mdelay, x, n)
  {
    hide PushedOutBy;
  }

  lemma YoungArrives(a: Progress, m: Message, now: int, mdelay: int, x: Message)
    requires IsYoung(x, now, mdelay)
    ensures x in Arrive(a, m, now, mdelay).out <==>
              x in a.out || (x in a.delay && x.relPath == m.relPath && MustKeep(x, m))
  {
    hide Displaced, Replaced, IsDelayed;
    DisplacedIs(a.delay, m, true, x);
  }

  lemma {:induction false} YoungInBatch(s: State, b: Batch, mdelay: int, x: Message, n: nat)
    requires n <= |b.incoming| && IsYoung(x, b.now, mdelay)
    ensures x in Before(s, b, mdelay, n).out <==> PushedOut(s, b, mdelay, x, n)
  {
    hide Arrive, IsYoung, PushedOut;
    if n == 0 {
      NonePushedOut(s, b, mdelay, x);
    } else {
      YoungInBatch(s, b, mdelay, x, n - 1);
      BeforeStep(s, b, mdelay, n - 1);
      hide Before, MustKeep;
      YoungArrives(Before(s, b, mdelay, n - 1), b.incoming[n - 1], b.now, mdelay, x);
      PushedOutStep(s, b, mdelay, x, n - 1);
    }
  }

  lemma NonePushedOut(s: State, b: Batch, mdelay: int, x: Message)
    ensures !PushedOut(s, b, mdelay, x, 0)
  {
  }

  lemma {:induction false} DueIs(delay: seq<Message>, clock: nat -> int, mdelay: int, due: bool, x: Message)
    ensures x in Due(delay, clock, mdelay, due) <==>
              exists i :: 0 <= i < |delay| && delay[i] == x && IsYoung(x, clock(i), mdelay) != due
  {
    if delay != [] {
      var n := |delay| - 1;
      DueIs(delay[..n], clock, mdelay, due, x);
      assert (exists i :: 0 <= i < n && delay[i] == x && IsYoung(x, clock(i), mdelay) != due) <==>
             x in Due(delay[..n], clock, mdelay, due) by {
        assert forall i | 0 <= i < n :: delay[..n][i] == delay[i];
      }
    }
  }

  /** The messages younger than the delay that a batch forwards are exactly those held when a message
      of the same path comes and one of the two carries a file operation, and, at a stop, those still
      held. */
  lemma ForwardedYoung(s: State, b: Batch, mdelay: int)
    ensures var a := Before(s, b, mdelay, |b.incoming|);
            var due, rest := Due(a.delay, b.clock, mdelay, true), Due(a.delay, b.clock, mdelay, false);
            && Accept(s, b, mdelay).out == s.out + (a.out + due + if b.stop then rest else [])
            && (forall x | IsYoung(x, b.now, mdelay) :: x in a.out <==> PushedOut(s, b, mdelay, x, |b.incoming|))
            && (forall x | x in due ::
                  exists i :: 0 <= i < |a.delay| && a.delay[i] == x && !IsYoung(x, b.clock(i), mdelay))
            && (forall x | x in rest ::
                  exists i :: 0 <= i < |a.delay| && a.delay[i] == x && IsYoung(x, b.clock(i), mdelay))
  {
    var a := Before(s, b, mdelay, |b.incoming|);
    assert b.incoming[..|b.incoming|] == b.incoming;
    forall x | IsYoung(x, b.now, mdelay) ensures x in a.out <==> PushedOut(s, b, mdelay, x, |b.incoming|) {
      YoungInBatch(s, b, mdelay, x, |b.incoming|);
    }
    forall x | x in Due(a.delay, b.clock, mdelay, true)
      ensures exists i :: 0 <= i < |a.delay| && a.delay[i] == x && !IsYoung(x, b.clock(i), mdelay)
    {
      DueIs(a.delay, b.clock, mdelay, true, x);
    }
    forall x | x in Due(a.delay, b.clock, mdelay, false)
      ensures exists i :: 0 <= i < |a.delay| && a.delay[i] == x && IsYoung(x, b.clock(i), mdelay)
    {
      DueIs(a.delay, b.clock, mdelay, false, x);
    }
    hide ArriveAll, Due, PushedOut;
  }

  /** Two messages of one path in a batch, the second one an operation, and a delay of 30: the first is
      forwarded at once, as new as it came; and so is a single one at a stop. */
  lemma NewForwarded()
    ensures var m, op := Message(0, "f", 0, false), Message(1, "f", 0, true);
            && IsYoung(m, 0, 30)
            && Accept(START, Batch([m, op], 0, i => 0, false), 30) == State([m, op], [m], [op], [])
            && Accept(START, Batch([m], 0, i => 0, true), 30) == State([m], [m], [], [])
  {
    var m, op := Message(0, "f", 0, false), Message(1, "f", 0, true);
    var p0 := Progress([], [], []);
    OneArrives(m);
    assert [m, op][..1] == [m] && [m][..0] == [] && [op][..0] == [];
    assert Displaced([m], op, true) == [m] && Displaced([m], op, false) == [];
    assert Replaced([m], op) == [op] && IsDelayed([m], "f");
    assert ArriveAll(p0, [m, op], 0, 30) == Arrive(Progress([], [m], []), op, 0, 30) == Progress([m], [op], []);
    assert Due([op], i => 0, 30, true) == [] && Due([op], i => 0, 30, false) == [op];
    assert Due([m], i => 0, 30, true) == [] && Due([m], i => 0, 30, false) == [m];
  }

  lemma OneArrives(m: Message)
    requires m.pubTime == 0
    ensures ArriveAll(Progress([], [], []), [m], 0, 30) == Progress([], [m], [])
  {
    assert [m][..0] == [];
    assert Replaced([], m) == [];
  }
}
