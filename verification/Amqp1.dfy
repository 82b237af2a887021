/** One AMQP 1.0 subscriber connection: the receiver thread gives out link credit and settles
    deliveries, the application thread takes messages and asks for acknowledgements, and two
    queues lie between them.  Credit is that of section 2.6.7 of the AMQP 1.0 standard, and
    settling with the accepted outcome that of section 3.4.2. */
module Amqp1 {
  import opened Sequences

  /** A receiving link. */
  type Receiver = nat

  /** `credit` is what the broker may still send on a link; `pending` maps the tag of each
      unsettled delivery to its link; `held` are the tags of messages the application still has
      to acknowledge.  `asked` and `settled` record requests and settlements, and `faulty` that
      a request was queued but reported as failed. */
  datatype State = State(
    prefetch: nat,
    credit: map<Receiver, nat>,
    pending: map<nat, Receiver>,
    ackIdCounter: nat,
    msgQ: seq<nat>,
    held: set<nat>,
    ackQ: seq<nat>,
    asked: set<nat>,
    settled: seq<nat>,
    faulty: bool)

  /** Nothing received yet and no link open: an open link is a key of `credit`. */
  function Start(prefetch: nat): State {
    State(prefetch, map[], map[], 0, [], {}, [], {}, [], false)
  }

  datatype Step =
    | LinkOpened(r: Receiver, start: nat)
    | Deliver(r: Receiver)
    | Take(decodes: bool)
    | Ack(tag: nat, scheduled: bool)
    | Drain

  /** The credit of a link that opens with credit `start`: the prefetch is added to it. */
  function OpenCredit(prefetch: nat, start: nat): nat {
    if start < prefetch then start + prefetch else start
  }

  /** A link opens once, with no credit; the broker sends only within its credit. */
  predicate CanStep(s: State, step: Step) {
    match step
    case LinkOpened(r, start) => r !in s.credit && start == 0
    case Deliver(r) => r in s.credit && s.credit[r] > 0
    case Take(_) => s.msgQ != []
    case Ack(tag, _) => tag in s.held
    case Drain => s.ackQ != []
  }

  function AskAck(s: State, tag: nat): State {
    s.(ackQ := s.ackQ + [tag], asked := s.asked + {tag})
  }

  /** The receiver thread takes one tag from the queue; a tag with no pending delivery is skipped. */
  function Settle(s: State): State
    requires s.ackQ != []
  {
    var tag, rest := s.ackQ[0], s.(ackQ := s.ackQ[1..]);
    if tag !in s.pending then rest
    else
      var r := s.pending[tag];
      var s' := rest.(pending := s.pending - {tag}, settled := s.settled + [tag]);
      if r in s.credit && s.credit[r] < s.prefetch then s'.(credit := s.credit[r := s.credit[r] + 1]) else s'
  }

  function Next(s: State, step: Step): State
    requires CanStep(s, step)
  {
    match step
    case LinkOpened(r, start) => s.(credit := s.credit[r := OpenCredit(s.prefetch, start)])
    case Deliver(r) =>
      s.(credit := s.credit[r := s.credit[r] - 1],
         pending := s.pending[s.ackIdCounter := r],
         msgQ := s.msgQ + [s.ackIdCounter],
         ackIdCounter := s.ackIdCounter + 1)
    case Take(decodes) =>
      var s' := s.(msgQ := s.msgQ[1..]);
      if decodes then s'.(held := s.held + {s.msgQ[0]}) else AskAck(s', s.msgQ[0])
    case Ack(tag, scheduled) =>
      if scheduled then AskAck(s, tag).(held := s.held - {tag}) else AskAck(s, tag).(faulty := true)
    case Drain => Settle(s)
  }

  function DrainAll(s: State): State
    decreases |s.ackQ|
  {
    if s.ackQ == [] then s else DrainAll(Settle(s))
  }

  /** `ml` is taken from the front of `q`, `rest` is left: a batch of `size`, or fewer because nothing is
      left or the next message did not decode, which is then gone too. */
  ghost predicate Taken(q: seq<nat>, ml: seq<nat>, rest: seq<nat>, size: nat, decodes: nat -> bool) {
    || (q == ml + rest && (rest == [] || |ml| == size))
    || (|ml| < size && |ml| < |q| && !decodes(q[|ml|]) && q == ml + [q[|ml|]] + rest)
  }

  lemma EndedEarly(q: seq<nat>, ml: seq<nat>, rest: seq<nat>, size: nat, decodes: nat -> bool)
    requires q == ml + rest && |ml| < size
    ensures rest == [] ==> Taken(q, ml, rest, size, decodes)
    ensures rest != [] ==> |ml| < |q| && q[|ml|] == rest[0] && q != ml + rest[1..]
    ensures rest != [] && !decodes(rest[0]) ==> Taken(q, ml, rest[1..], size, decodes)
  {
    if rest != [] {
      assert rest == [rest[0]] + rest[1..];
      assert |ml + rest[1..]| < |q|;
    }
  }

  lemma BatchFull(q: seq<nat>, ml: seq<nat>, rest: seq<nat>, decodes: nat -> bool)
    requires q == ml + rest
    ensures Taken(q, ml, rest, |ml|, decodes)
  {
  }

  class Connection {
    const prefetch: nat
    var credit: map<Receiver, nat>
    var pendingDeliveries: map<nat, Receiver>
    var ackIdCounter: nat
    var msgQ: seq<nat>
    var ackQ: seq<nat>
    ghost var held: set<nat>
    ghost var asked: set<nat>
    ghost var settled: seq<nat>
    ghost var faulty: bool

    ghost function Current(): State
      reads this
    {
      State(prefetch, credit, pendingDeliveries, ackIdCounter, msgQ, held, ackQ, asked, settled, faulty)
    }

    constructor (prefetch: nat)
      ensures Current() == Start(prefetch)
    {
      this.prefetch := prefetch;
      credit, pendingDeliveries, ackIdCounter, msgQ, ackQ := map[], map[], 0, [], [];
      held, asked, settled, faulty := {}, {}, [], false;
    }

    method OnLinkOpened(r: Receiver, startCredit: nat)
      modifies this`credit
      ensures credit == old(credit)[r := OpenCredit(prefetch, startCredit)]
    {
      credit := credit[r := startCredit];
      if startCredit < prefetch {
        credit := credit[r := credit[r] + prefetch];
      }
    }

    method OnMessage(r: Receiver)
      requires CanStep(Current(), Deliver(r))
      modifies this
      ensures Current() == Next(old(Current()), Deliver(r))
    {
      credit := credit[r := credit[r] - 1];
      pendingDeliveries := pendingDeliveries[ackIdCounter := r];
      msgQ := msgQ + [ackIdCounter];
      ackIdCounter := ackIdCounter + 1;
    }

    method RequestAck(tag: nat)
      modifies this`ackQ, this`asked
      ensures Current() == AskAck(old(Current()), tag)
    {
      ackQ := ackQ + [tag];
      asked := asked + {tag};
    }

    method GetNewMessage(decodes: nat -> bool) returns (message: Option<nat>)
      modifies this
      ensures old(msgQ) == [] ==> message == None && Current() == old(Current())
      ensures old(msgQ) != [] ==>
                && Current() == Next(old(Current()), Take(decodes(old(msgQ)[0])))
                && message == if decodes(old(msgQ)[0]) then Some(old(msgQ)[0]) else None
    {
      if msgQ == [] {
        return None;
      }
      var ackId := msgQ[0];
      msgQ := msgQ[1..];
      if decodes(ackId) {
        held := held + {ackId};
        message := Some(ackId);
      } else {
        RequestAck(ackId);
        message := None;
      }
    }

    /** A batch: it ends early when the queue is empty, or at a message that does not decode. */
    method NewMessages(batch: nat, decodes: nat -> bool) returns (ml: seq<nat>)
      modifies this
      ensures Good(old(Current())) ==> Good(Current())
      ensures |ml| <= if batch == 0 then 1 else batch
      ensures Taken(old(msgQ), ml, msgQ, if batch == 0 then 1 else batch, decodes)
      ensures old(msgQ) != ml + msgQ ==> |ml| < |old(msgQ)| && old(msgQ)[|ml|] in asked
      ensures held == old(held) + Elements(ml) && forall m | m in ml :: decodes(m)
      ensures credit == old(credit) && pendingDeliveries == old(pendingDeliveries)
    {
      hide Elements, Good, Next, CanStep, Taken;
      ml := [];
      ghost var good := Good(Current());
      ElementsNone();
      while |ml| == 0 || |ml| < batch
        invariant good ==> Good(Current())
        invariant ml + msgQ == old(msgQ)
        invariant |ml| <= if batch == 0 then 1 else batch
        invariant held == old(held) + Elements(ml) && forall m | m in ml :: decodes(m)
        invariant credit == old(credit) && pendingDeliveries == old(pendingDeliveries)
        decreases |msgQ|
      {
        ghost var s := Current();
        if s.msgQ != [] {
          OneTaken(s, decodes(s.msgQ[0]), ml);
          ElementsSnoc(ml, s.msgQ[0]);
        }
        var m := GetNewMessage(decodes);
        if m.None? {
          EndedEarly(old(msgQ), ml, s.msgQ, if batch == 0 then 1 else batch, decodes);
          return;
        }
        ml := ml + [m.value];
      }
      BatchFull(old(msgQ), ml, msgQ, decodes);
    }

    /** Repeated acknowledgements are ignored: the tag is removed with the first one. */
    method AckMessage(tag: nat, hasAckId: bool, scheduled: bool) returns (ok: bool)
      requires hasAckId ==> tag in held
      modifies this
      ensures Current() == if hasAckId then Next(old(Current()), Ack(tag, scheduled)) else old(Current())
      ensures ok == (hasAckId ==> scheduled)
    {
      if !hasAckId {
        return true;
      }
      RequestAck(tag);
      if scheduled {
        held := held - {tag};
      } else {
        faulty := true;
      }
      ok := scheduled;
    }

    method OnTimerTask()
      modifies this
      ensures Current() == DrainAll(old(Current()))
    {
      while ackQ != []
        invariant DrainAll(Current()) == DrainAll(old(Current()))
        decreases |ackQ|
      {
        var tag := ackQ[0];
        ackQ := ackQ[1..];
        if tag in pendingDeliveries {
          var r := pendingDeliveries[tag];
          pendingDeliveries := pendingDeliveries - {tag};
          settled := settled + [tag];
          if r in credit && credit[r] < prefetch {
            credit := credit[r := credit[r] + 1];
          }
        }
      }
    }
  }

  // Invariants.

  function TagsOf(s: State, r: Receiver): set<nat> {
    set t | t in s.pending && s.pending[t] == r
  }

  /** On every open link, the credit left and the unsettled deliveries add up to the prefetch. */
  ghost predicate CreditOk(s: State) {
    && (forall r | r in s.credit :: s.credit[r] + |TagsOf(s, r)| == s.prefetch)
    && (forall t | t in s.pending :: s.pending[t] in s.credit)
  }

  ghost predicate Distinct(q: seq<nat>) {
    forall i, j | 0 <= i < j < |q| :: q[i] != q[j]
  }

  /** Every tag in circulation names a delivery; an unsettled delivery can be found; and a
      delivery is settled once, after it was asked for. */
  ghost predicate TagsOk(s: State) {
    && (forall t | t in s.msgQ || t in s.held || t in s.ackQ || t in s.asked || t in s.settled || t in s.pending ::
          t < s.ackIdCounter)
    && Distinct(s.msgQ) && Distinct(s.settled)
    && (forall t | t in s.msgQ :: t in s.pending && t !in s.held && t !in s.asked)
    && (forall t | t in s.pending :: t in s.msgQ || t in s.held || t in s.ackQ)
    && (forall t | t in s.ackQ :: t in s.asked)
    && (forall t | t in s.settled :: t in s.asked && t !in s.pending)
  }

  /** Both queues and the application hold unsettled deliveries only, and no delivery that is to be
      acknowledged is held or queued again. */
  ghost predicate Clean(s: State) {
    && Distinct(s.ackQ)
    && (forall t | t in s.held :: t in s.pending && t !in s.asked)
    && (forall t | t in s.ackQ :: t in s.pending)
  }

  /** What was asked for is queued or no longer pending; and only a failed request leaves a mess. */
  ghost predicate Tidy(s: State) {
    && (forall t | t in s.asked :: t in s.ackQ || t !in s.pending)
    && (!s.faulty ==> Clean(s))
  }

  ghost predicate Good(s: State) {
    CreditOk(s) && TagsOk(s) && Tidy(s)
  }

  /** A link gets exactly the prefetch if and only if it opens with no credit, or with just as much. */
  lemma OpenCreditExact(prefetch: nat, start: nat)
    ensures OpenCredit(prefetch, start) == prefetch <==> start == 0 || start == prefetch
  {
  }

  lemma CreditOpen(s: State, r: Receiver)
    requires CreditOk(s) && r !in s.credit
    ensures CreditOk(s.(credit := s.credit[r := s.prefetch]))
  {
    var s' := s.(credit := s.credit[r := s.prefetch]);
    assert TagsOf(s', r) == {};
    forall q | q in s.credit ensures TagsOf(s', q) == TagsOf(s, q) {}
  }

  lemma CreditSame(s: State, s': State)
    requires CreditOk(s) && s'.credit == s.credit && s'.pending == s.pending && s'.prefetch == s.prefetch
    ensures CreditOk(s')
  {
    forall q | q in s.credit ensures TagsOf(s', q) == TagsOf(s, q) {}
  }

  lemma CreditDeliver(s: State, r: Receiver, t: nat)
    requires CreditOk(s) && r in s.credit && s.credit[r] > 0 && t !in s.pending
    ensures CreditOk(s.(credit := s.credit[r := s.credit[r] - 1], pending := s.pending[t := r]))
  {
    var s' := s.(credit := s.credit[r := s.credit[r] - 1], pending := s.pending[t := r]);
    assert TagsOf(s', r) == TagsOf(s, r) + {t};
    forall q | q in s.credit && q != r ensures TagsOf(s', q) == TagsOf(s, q) {}
  }

  lemma CreditSettle(s: State, t: nat)
    requires CreditOk(s) && t in s.pending
    ensures var r := s.pending[t];
            && r in s.credit && s.credit[r] < s.prefetch
            && CreditOk(s.(credit := s.credit[r := s.credit[r] + 1], pending := s.pending - {t}))
  {
    var r := s.pending[t];
    var s' := s.(credit := s.credit[r := s.credit[r] + 1], pending := s.pending - {t});
    assert t in TagsOf(s, r);
    assert TagsOf(s', r) == TagsOf(s, r) - {t};
    forall q | q in s.credit && q != r ensures TagsOf(s', q) == TagsOf(s, q) {}
  }

  lemma CreditStep(s: State, step: Step)
    requires CreditOk(s) && TagsOk(s) && CanStep(s, step)
    ensures CreditOk(Next(s, step))
  {
    var s' := Next(s, step);
    match step
    case LinkOpened(r, _) =>
      CreditOpen(s, r);
      hide CreditOk, TagsOk;
    case Deliver(r) =>
      var t := s.ackIdCounter;
      CreditDeliver(s, r, t);
      hide TagsOk, CreditOk;
      CreditSame(s.(credit := s'.credit, pending := s'.pending), s');
    case Drain =>
      var t := s.ackQ[0];
      if t in s.pending {
        CreditSettle(s, t);
        hide CreditOk, TagsOk;
        CreditSame(s.(credit := s'.credit, pending := s'.pending), s');
      } else {
        hide CreditOk, TagsOk;
        CreditSame(s, s');
      }
    case _ =>
      hide CreditOk, TagsOk;
      CreditSame(s, s');
  }

  lemma TagsDeliver(s: State, r: Receiver)
    requires TagsOk(s) && CanStep(s, Deliver(r))
    ensures TagsOk(Next(s, Deliver(r)))
  {
    var s', t := Next(s, Deliver(r)), s.ackIdCounter;
    assert forall x :: x in s'.msgQ <==> x in s.msgQ || x == t;
    forall i | 0 <= i < |s.msgQ| ensures s.msgQ[i] != t {
      assert s.msgQ[i] in s.msgQ;
    }
  }

  lemma SplitHead(q: seq<nat>)
    requires q != []
    ensures forall x :: x in q <==> x == q[0] || x in q[1..]
    ensures Distinct(q) ==> q[0] !in q[1..] && Distinct(q[1..])
  {
    assert q == [q[0]] + q[1..];
  }

  lemma TagsTake(s: State, decodes: bool)
    requires TagsOk(s) && CanStep(s, Take(decodes))
    ensures TagsOk(Next(s, Take(decodes)))
  {
    SplitHead(s.msgQ);
  }

  lemma TagsAck(s: State, tag: nat, scheduled: bool)
    requires TagsOk(s) && CanStep(s, Ack(tag, scheduled))
    ensures TagsOk(Next(s, Ack(tag, scheduled)))
  {
    assert tag !in s.msgQ;
  }

  lemma TagsDrain(s: State)
    requires TagsOk(s) && CanStep(s, Drain)
    ensures TagsOk(Next(s, Drain))
  {
    SplitHead(s.ackQ);
    var tag, s' := s.ackQ[0], Settle(s);
    assert tag in s.asked && tag !in s.msgQ;
    if tag in s.pending {
      assert forall t :: t in s'.settled <==> t in s.settled || t == tag;
      assert tag !in s.settled;
    }
  }

  lemma TagsStep(s: State, step: Step)
    requires TagsOk(s) && CanStep(s, step)
    ensures TagsOk(Next(s, step))
  {
    match step
    case LinkOpened(_, _) =>
    case Deliver(r) => TagsDeliver(s, r);
    case Take(decodes) => TagsTake(s, decodes);
    case Ack(tag, scheduled) => TagsAck(s, tag, scheduled);
    case Drain => TagsDrain(s);
  }

  lemma TidyStep(s: State, step: Step)
    requires TagsOk(s) && Tidy(s) && CanStep(s, step)
    ensures Tidy(Next(s, step))
  {
    if step.Drain? {
      SplitHead(s.ackQ);
    } else if step.Take? {
      assert s.msgQ[0] in s.msgQ;
    }
  }

  /** Every step of either thread keeps the invariant. */
  lemma GoodStep(s: State, step: Step)
    requires Good(s) && CanStep(s, step)
    ensures Good(Next(s, step))
  {
    CreditStep(s, step);
    TagsStep(s, step);
    TidyStep(s, step);
  }

  /** What taking a message from the queue changes. */
  lemma OneTaken(s: State, decodes: bool, before: seq<nat>)
    requires s.msgQ != []
    ensures var tag, t := s.msgQ[0], Next(s, Take(decodes));
            && before + s.msgQ == (before + [tag]) + t.msgQ && (Good(s) ==> Good(t))
            && t.held == (if decodes then s.held + {tag} else s.held) && (!decodes ==> tag in t.asked)
            && t.credit == s.credit && t.pending == s.pending && t.msgQ == s.msgQ[1..]
  {
    hide Good;
    if Good(s) {
      GoodStep(s, Take(decodes));
    }
  }

  // Runs of one connection.

  ghost predicate CanRun(s: State, steps: seq<Step>)
    decreases |steps|
  {
    steps == [] || (CanStep(s, steps[0]) && CanRun(Next(s, steps[0]), steps[1..]))
  }

  ghost function Run(s: State, steps: seq<Step>): State
    requires CanRun(s, steps)
    decreases |steps|
  {
    if steps == [] then s else Run(Next(s, steps[0]), steps[1..])
  }

  lemma {:induction false} GoodRun(s: State, steps: seq<Step>)
    requires Good(s) && CanRun(s, steps)
    ensures Good(Run(s, steps))
    decreases |steps|
  {
    if steps != [] {
      GoodStep(s, steps[0]);
      GoodRun(Next(s, steps[0]), steps[1..]);
    }
  }

  function Drains(n: nat): seq<Step> {
    if n == 0 then [] else [Drain] + Drains(n - 1)
  }

  /** Draining the queue is a run of single settlements, as many as there are tags in it. */
  lemma {:induction false} DrainAllRuns(s: State)
    ensures CanRun(s, Drains(|s.ackQ|)) && DrainAll(s) == Run(s, Drains(|s.ackQ|))
    ensures DrainAll(s).ackQ == []
    decreases |s.ackQ|
  {
    if s.ackQ != [] {
      DrainAllRuns(Settle(s));
      assert Drains(|s.ackQ|)[1..] == Drains(|s.ackQ| - 1);
    }
  }

  // Failed requests.

  /** An acknowledgement that is queued but reported as failed, so that the message keeps its tag. */
  predicate FailedAck(step: Step) {
    step.Ack? && !step.scheduled
  }

  lemma {:induction false} FaultyIff(s: State, steps: seq<Step>)
    requires CanRun(s, steps)
    ensures Run(s, steps).faulty <==> s.faulty || exists i :: 0 <= i < |steps| && FailedAck(steps[i])
    decreases |steps|
  {
    if steps != [] {
      FaultyIff(Next(s, steps[0]), steps[1..]);
      assert forall i | 0 < i < |steps| :: steps[i] == steps[1..][i - 1];
      assert (exists i :: 0 <= i < |steps[1..]| && FailedAck(steps[1..][i])) <==>
             (exists i :: 0 < i < |steps| && FailedAck(steps[i])) by {
        if i :| 0 <= i < |steps[1..]| && FailedAck(steps[1..][i]) {
          assert FailedAck(steps[i + 1]);
        }
      }
      hide Next;
    }
  }

  /** A clean connection stays clean in a step if and only if the step is not a failed request. */
  lemma CleanStepIff(s: State, step: Step)
    requires TagsOk(s) && Clean(s) && CanStep(s, step)
    ensures Clean(Next(s, step)) <==> !FailedAck(step)
  {
    if step.Drain? {
      SplitHead(s.ackQ);
    } else if step.Take? {
      assert s.msgQ[0] in s.msgQ;
    } else if FailedAck(step) {
      assert step.tag in Next(s, step).held;
    }
  }

  lemma DisjointSize(a: set<nat>, b: set<nat>)
    requires a !! b
    ensures |a + b| == |a| + |b|
  {
  }

  /** The unsettled deliveries of the links in `rs`. */
  function TagsAmong(s: State, rs: set<Receiver>): set<nat> {
    set t | t in s.pending && s.pending[t] in rs
  }

  lemma {:induction false} PendingBound(s: State, rs: set<Receiver>)
    requires CreditOk(s) && rs <= s.credit.Keys
    ensures |TagsAmong(s, rs)| <= s.prefetch * |rs|
    decreases |rs|
  {
    if rs == {} {
      assert TagsAmong(s, rs) == {};
    } else {
      var r :| r in rs;
      var rest := rs - {r};
      PendingBound(s, rest);
      assert TagsAmong(s, rs) == TagsAmong(s, rest) + TagsOf(s, r);
      assert TagsAmong(s, rest) !! TagsOf(s, r);
      assert |TagsOf(s, r)| <= s.prefetch;
      hide CreditOk, TagsAmong, TagsOf;
      DisjointSize(TagsAmong(s, rest), TagsOf(s, r));
      assert |rs| == |rest| + 1;
      assert s.prefetch * (|rest| + 1) == s.prefetch * |rest| + s.prefetch;
    }
  }

  /** In every reachable state of a connection, credit and unsettled deliveries add up to the
      prefetch on every open link, so there are never more unsettled deliveries than the prefetch
      times the number of links. */
  lemma CreditBalance(steps: seq<Step>, prefetch: nat)
    requires CanRun(Start(prefetch), steps)
    ensures var s := Run(Start(prefetch), steps);
            && (forall r | r in s.credit :: s.credit[r] + |TagsOf(s, r)| == s.prefetch)
            && |s.pending.Keys| <= s.prefetch * |s.credit.Keys|
  {
    var s := Run(Start(prefetch), steps);
    GoodRun(Start(prefetch), steps);
    PendingBound(s, s.credit.Keys);
    assert TagsAmong(s, s.credit.Keys) == s.pending.Keys;
  }

  ghost function Elements(q: seq<nat>): set<nat> {
    set t | t in q
  }

  lemma ElementsNone()
    ensures Elements([]) == {}
  {
  }

  lemma ElementsSnoc(q: seq<nat>, t: nat)
    ensures Elements(q + [t]) == Elements(q) + {t}
  {
  }

  lemma DistinctSnoc(q: seq<nat>)
    requires q != []
    ensures Distinct(q) <==> Distinct(q[..|q| - 1]) && q[|q| - 1] !in q[..|q| - 1]
  {
  }

  lemma {:induction false} DistinctIff(q: seq<nat>)
    ensures |Elements(q)| <= |q|
    ensures Distinct(q) <==> |Elements(q)| == |q|
  {
    if q != [] {
      var n := |q| - 1;
      DistinctSnoc(q);
      DistinctIff(q[..n]);
      assert Elements(q) == Elements(q[..n]) + {q[n]} by { assert q == q[..n] + [q[n]]; }
      assert q[n] in Elements(q[..n]) <==> q[n] in q[..n];
      hide Distinct, Elements;
    }
  }

  function InFlight(s: State): nat {
    |s.msgQ| + |s.held| + |s.ackQ|
  }

  lemma UnionSize(a: set<nat>, b: set<nat>, c: set<nat>)
    ensures |a + b + c| <= |a| + |b| + |c|
    ensures |a + b + c| == |a| + |b| + |c| <==> a !! b && (a + b) !! c
  {
    SumSize(a, b);
    SumSize(a + b, c);
  }

  lemma SumSize(a: set<nat>, b: set<nat>)
    ensures |a + b| <= |a| + |b| && (|a + b| == |a| + |b| <==> a !! b)
  {
    assert |a + b| == |a| + |b| - |a * b|;
    if a * b == {} {
      forall x | x in a ensures x !in b {
        assert x in b ==> x in a * b;
      }
    } else {
      var x :| x in a * b;
      assert |a * b| >= |{x}| by { SubsetSize({x}, a * b); }
      assert x in a && x in b;
    }
  }

  lemma SubsetSize(a: set<nat>, b: set<nat>)
    requires a <= b
    ensures |a| <= |b| && (|a| == |b| <==> a == b)
  {
    assert |b - a| == |b| - |a|;
    if |a| == |b| {
      assert b - a == {};
    }
  }

  /** The two queues and the application hold every unsettled delivery, so at least as many tags as
      there are; and exactly as many if and only if the connection is clean. */
  lemma InFlightIff(s: State)
    requires Good(s)
    ensures Elements(s.msgQ) + s.held + Elements(s.ackQ) >= s.pending.Keys
    ensures InFlight(s) >= |s.pending.Keys| && (InFlight(s) == |s.pending.Keys| <==> Clean(s))
  {
    var a, b, c := Elements(s.msgQ), s.held, Elements(s.ackQ);
    var all := a + b + c;
    assert s.pending.Keys <= all;
    hide CreditOk;
    DistinctIff(s.msgQ);
    DistinctIff(s.ackQ);
    UnionSize(a, b, c);
    SubsetSize(s.pending.Keys, all);
    assert Clean(s) ==> all == s.pending.Keys && a !! b && (a + b) !! c;
    if all == s.pending.Keys && (a + b) !! c && Distinct(s.ackQ) {
      forall t | t in s.held ensures t in s.pending && t !in s.asked {
        assert t in all && t !in c;
      }
      forall t | t in s.ackQ ensures t in s.pending {
        assert t in all;
      }
      assert Clean(s);
    }
  }

  lemma {:induction false} PendingFull(s: State, rs: set<Receiver>)
    requires CreditOk(s) && rs <= s.credit.Keys && forall r | r in rs :: s.credit[r] == 0
    ensures |TagsAmong(s, rs)| == s.prefetch * |rs|
    decreases |rs|
  {
    if rs == {} {
      assert TagsAmong(s, rs) == {};
    } else {
      var r :| r in rs;
      var rest := rs - {r};
      PendingFull(s, rest);
      assert TagsAmong(s, rs) == TagsAmong(s, rest) + TagsOf(s, r);
      assert TagsAmong(s, rest) !! TagsOf(s, r);
      assert |TagsOf(s, r)| == s.prefetch;
      hide CreditOk, TagsAmong, TagsOf;
      DisjointSize(TagsAmong(s, rest), TagsOf(s, r));
      assert |rs| == |rest| + 1;
      assert s.prefetch * (|rest| + 1) == s.prefetch * |rest| + s.prefetch;
    }
  }

  /** In every reachable state: the message queue, the application and the ack queue together hold at
      most the prefetch times the number of links as long as the connection is clean, which it is
      unless some request failed; and once all credit is used the bound holds if and only if it is. */
  lemma InFlightBound(steps: seq<Step>, prefetch: nat)
    requires CanRun(Start(prefetch), steps)
    ensures var s := Run(Start(prefetch), steps);
            && ((forall i | 0 <= i < |steps| :: !FailedAck(steps[i])) ==> Clean(s))
            && (Clean(s) ==> InFlight(s) == |s.pending.Keys| <= s.prefetch * |s.credit.Keys|)
            && ((forall r | r in s.credit :: s.credit[r] == 0) ==>
                  (InFlight(s) <= s.prefetch * |s.credit.Keys| <==> Clean(s)))
  {
    var s := Run(Start(prefetch), steps);
    GoodRun(Start(prefetch), steps);
    CreditBalance(steps, prefetch);
    FaultyIff(Start(prefetch), steps);
    InFlightIff(s);
    if forall r | r in s.credit :: s.credit[r] == 0 {
      PendingFull(s, s.credit.Keys);
      assert TagsAmong(s, s.credit.Keys) == s.pending.Keys;
    }
    hide Clean, CreditOk, TagsOk, Run, CanRun, TagsAmong, FailedAck;
  }

  /** Whatever fails, the tags of unsettled deliveries alone never exceed the bound. */
  lemma UnsettledBound(steps: seq<Step>, prefetch: nat)
    requires CanRun(Start(prefetch), steps)
    ensures var s := Run(Start(prefetch), steps);
            && (Elements(s.msgQ) + s.held + Elements(s.ackQ)) * s.pending.Keys == s.pending.Keys
            && |s.pending.Keys| <= s.prefetch * |s.credit.Keys|
  {
    GoodRun(Start(prefetch), steps);
    CreditBalance(steps, prefetch);
    InFlightIff(Run(Start(prefetch), steps));
    hide Good, Run, CanRun;
  }

  /** The states that one failed request on a link with a prefetch of 1 leads through. */
  function Stage(i: nat): State
    requires i <= 6
  {
    match i
    case 0 => Start(1)
    case 1 => State(1, map[0 := 1], map[], 0, [], {}, [], {}, [], false)
    case 2 => State(1, map[0 := 0], map[0 := 0], 1, [0], {}, [], {}, [], false)
    case 3 => State(1, map[0 := 0], map[0 := 0], 1, [], {0}, [], {}, [], false)
    case 4 => State(1, map[0 := 0], map[0 := 0], 1, [], {0}, [0], {0}, [], true)
    case 5 => State(1, map[0 := 1], map[], 1, [], {0}, [], {0}, [0], true)
    case _ => State(1, map[0 := 0], map[1 := 0], 2, [1], {0}, [], {0}, [0], true)
  }

  const OVERFLOW := [LinkOpened(0, 0), Deliver(0), Take(true), Ack(0, false), Drain, Deliver(0)]

  lemma StageStep(i: nat)
    requires i < 6
    ensures CanStep(Stage(i), OVERFLOW[i]) && Next(Stage(i), OVERFLOW[i]) == Stage(i + 1)
  {
  }

  lemma {:induction false} StagesRun(i: nat)
    requires i <= 6
    ensures CanRun(Stage(i), OVERFLOW[i..]) && Run(Stage(i), OVERFLOW[i..]) == Stage(6)
    decreases 6 - i
  {
    hide Stage, Next, CanStep;
    if i < 6 {
      StageStep(i);
      StagesRun(i + 1);
      assert OVERFLOW[i..][0] == OVERFLOW[i] && OVERFLOW[i..][1..] == OVERFLOW[i + 1..];
    }
  }

  /** One failed request on a link with a prefetch of 1: the message is held and settled, the broker
      sends the next one, and two are in flight. */
  lemma FailedAckOverflows()
    ensures CanRun(Start(1), OVERFLOW) && InFlight(Run(Start(1), OVERFLOW)) == 2
  {
    StagesRun(0);
    assert OVERFLOW[0..] == OVERFLOW;
    hide CanRun, Run;
    assert |{0}| == 1;
  }

  /** In every reachable state: each delivery is settled at most once, only after the application
      acknowledged it or it failed to decode, and one not settled yet can still be found. */
  lemma SettledOnce(steps: seq<Step>, prefetch: nat)
    requires CanRun(Start(prefetch), steps)
    ensures var s := Run(Start(prefetch), steps);
            && Distinct(s.settled)
            && (forall t | t in s.settled :: t in s.asked && t !in s.pending)
            && (forall t | t in s.pending :: t in s.msgQ || t in s.held || t in s.ackQ)
  {
    GoodRun(Start(prefetch), steps);
  }

  /** Tags are the delivery numbers: in every reachable state each delivery so far is either
      unsettled or settled, and none is both. */
  lemma EachDeliveryAccounted(steps: seq<Step>, prefetch: nat)
    requires CanRun(Start(prefetch), steps)
    ensures var s := Run(Start(prefetch), steps);
            forall t: nat :: t < s.ackIdCounter <==> (t in s.pending || t in s.settled)
  {
    AccountedRun(Start(prefetch), steps);
  }

  ghost predicate Accounted(s: State) {
    forall t: nat :: t < s.ackIdCounter <==> (t in s.pending || t in s.settled)
  }

  lemma {:induction false} AccountedRun(s: State, steps: seq<Step>)
    requires CanRun(s, steps) && Accounted(s)
    ensures Accounted(Run(s, steps))
    decreases |steps|
  {
    if steps != [] {
      AccountedRun(Next(s, steps[0]), steps[1..]);
    }
  }

  // Order.

  /** The message queue holds the latest deliveries, all of them from some number on, in order. */
  ghost predicate InArrivalOrder(s: State) {
    && |s.msgQ| <= s.ackIdCounter
    && forall k | 0 <= k < |s.msgQ| :: s.msgQ[k] == s.ackIdCounter - |s.msgQ| + k
  }

  /** Deliveries are taken in the order in which they arrived, none before an earlier one: in every reachable
      state those still queued are all from some number on, so the next one taken is the first not taken. */
  lemma {:induction false} TakenInOrder(s: State, steps: seq<Step>)
    requires InArrivalOrder(s) && CanRun(s, steps)
    ensures InArrivalOrder(Run(s, steps))
    ensures Run(s, steps).msgQ != [] ==>
              Run(s, steps).msgQ[0] == Run(s, steps).ackIdCounter - |Run(s, steps).msgQ|
    decreases |steps|
  {
    if steps != [] {
      TakenInOrder(Next(s, steps[0]), steps[1..]);
    }
  }

  /** What a step asks to be settled. */
  function RequestIn(s: State, step: Step): seq<nat>
    requires CanStep(s, step)
  {
    match step
    case Ack(tag, _) => [tag]
    case Take(decodes) => if decodes then [] else [s.msgQ[0]]
    case _ => []
  }

  ghost function Requests(s: State, steps: seq<Step>): seq<nat>
    requires CanRun(s, steps)
    decreases |steps|
  {
    if steps == [] then [] else RequestIn(s, steps[0]) + Requests(Next(s, steps[0]), steps[1..])
  }

  /** `asked` are the requests so far: those taken from the ack queue, of which some were settled in their
      order, and then those in it. */
  ghost predicate InRequestOrder(s: State, asked: seq<nat>) {
    exists drained :: asked == drained + s.ackQ && IsSubseq(s.settled, drained)
  }

  /** What a step does to the ack queue and to what is settled. */
  lemma StepQueues(s: State, step: Step)
    requires CanStep(s, step)
    ensures var t := Next(s, step);
            if step.Drain? then
              t.ackQ == s.ackQ[1..] && (t.settled == s.settled || t.settled == s.settled + [s.ackQ[0]])
            else t.ackQ == s.ackQ + RequestIn(s, step) && t.settled == s.settled
  {
  }

  lemma OneDrained(asked: seq<nat>, drained: seq<nat>, ackQ: seq<nat>, settled: seq<nat>, settled': seq<nat>)
    requires asked == drained + ackQ && ackQ != [] && IsSubseq(settled, drained)
    requires settled' == settled || settled' == settled + [ackQ[0]]
    ensures asked == (drained + [ackQ[0]]) + ackQ[1..] && IsSubseq(settled', drained + [ackQ[0]])
  {
    hide IsSubseq;
    SubseqSnoc(settled, drained, ackQ[0]);
  }

  lemma RequestStep(s: State, step: Step, asked: seq<nat>)
    requires CanStep(s, step) && InRequestOrder(s, asked)
    ensures InRequestOrder(Next(s, step), asked + RequestIn(s, step))
  {
    hide IsSubseq;
    var drained :| asked == drained + s.ackQ && IsSubseq(s.settled, drained);
    StepQueues(s, step);
    assert step.Drain? ==> s.ackQ != [] && asked + RequestIn(s, step) == asked;
    hide Next, RequestIn, CanStep;
    var t := Next(s, step);
    if step.Drain? {
      OneDrained(asked, drained, s.ackQ, s.settled, t.settled);
    } else {
      assert asked + RequestIn(s, step) == drained + t.ackQ;
    }
  }

  lemma {:induction false} RequestRun(s: State, steps: seq<Step>, asked: seq<nat>)
    requires CanRun(s, steps) && InRequestOrder(s, asked)
    ensures InRequestOrder(Run(s, steps), asked + Requests(s, steps))
    decreases |steps|
  {
    hide InRequestOrder, Next, RequestIn, CanStep;
    if steps == [] {
      assert asked + [] == asked;
    } else {
      RequestStep(s, steps[0], asked);
      RequestRun(Next(s, steps[0]), steps[1..], asked + RequestIn(s, steps[0]));
      assert (asked + RequestIn(s, steps[0])) + Requests(Next(s, steps[0]), steps[1..]) == asked + Requests(s, steps);
    }
  }

  /** In every reachable state: deliveries are taken in the order of arrival, and settled in the order in
      which that was asked for; what was asked for last is still queued. */
  lemma OrderKept(steps: seq<Step>, prefetch: nat)
    requires CanRun(Start(prefetch), steps)
    ensures var s, asked := Run(Start(prefetch), steps), Requests(Start(prefetch), steps);
            && InArrivalOrder(s) && IsSubseq(s.settled, asked)
            && |s.ackQ| <= |asked| && s.ackQ == asked[|asked| - |s.ackQ|..]
  {
    var s0 := Start(prefetch);
    TakenInOrder(s0, steps);
    assert InRequestOrder(s0, []) by { assert [] == [] + s0.ackQ; }
    RequestRun(s0, steps, []);
    var s, asked := Run(s0, steps), Requests(s0, steps);
    assert [] + asked == asked;
    var drained :| asked == drained + s.ackQ && IsSubseq(s.settled, drained);
    SubseqExtend(s.settled, drained, s.ackQ);
  }
}
