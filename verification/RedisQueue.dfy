/** The Redis-backed retry queue: any number of instances share three lists and a lock, and
    interleave one Redis command at a time. */
module RedisQueue {
  import opened Sequences
  import opened RetryMessage
  import opened DiskFiles
  import Fifo = FifoQueue

  /** Where an instance is in its program, with the local variables that matter there. */
  datatype Pc =
    | Idle
    | Putting(rest: seq<Message>)
    | GetStart(want: nat)
    | Getting(want: nat)
    | HkStart
    | HkTest
    | HkWait
    | HkAcquire
    | HkLen
    | HkDelete
    | HkPopMain
    | HkPushMain(m: Message)
    | HkPopNew
    | HkPushNew(m: Message)
    | HkCommit
    | HkStamp
    | HkRelease

  /** `count` and `cache` are N and the retry cache of the instance's latest housekeeping. */
  datatype Instance = Instance(pc: Pc, now: int, count: nat, cache: set<string>)

  datatype Delivery = Delivery(to: nat, m: Message, expired: bool)

  /** The three Redis lists; then what has happened to the messages so far: those pushed, those
      popped by the housekeeping under way, those dropped by one, and those popped by a get. */
  datatype Lists = Lists(
    main: seq<Line>,
    recent: seq<Line>,
    hk: seq<Line>,
    puts: seq<Message>,
    taken: seq<Message>,
    dropped: seq<Message>,
    log: seq<Delivery>)

  datatype System = System(lists: Lists, lock: Option<nat>, lastHk: int, insts: map<nat, Instance>)

  datatype Options = Options(ttl: Option<int>, housekeeping: int)

  datatype Step =
    | CallPut(i: nat, ms: seq<Message>)
    | CallGet(i: nat, want: nat)
    | CallHousekeeping(i: nat)
    | Advance(i: nat, wall: int)
    | Intrude

  predicate CanStep(s: System, step: Step) {
    match step
    case CallPut(i, _) => i in s.insts && s.insts[i].pc.Idle?
    case CallGet(i, _) => i in s.insts && s.insts[i].pc.Idle?
    case CallHousekeeping(i) => i in s.insts && s.insts[i].pc.Idle?
    case Advance(i, _) =>
      && i in s.insts && !s.insts[i].pc.Idle?
      && (s.insts[i].pc.HkAcquire? ==> s.lock.None?)
    case Intrude => true
  }

  // The effect of a command on the lists.

  function Pushed(l: Lists, m: Message): Lists {
    l.(recent := l.recent + [Entry(m)], puts := l.puts + [m])
  }

  /** The head of the main list popped by a get: handed out, or dropped if it has expired. */
  function Received(l: Lists, i: nat, now: int, o: Options): Lists
    requires l.main != []
  {
    match l.main[0]
    case Corrupt(_) => l.(main := l.main[1..])
    case Entry(m) => l.(main := l.main[1..], log := l.log + [Delivery(i, m, IsExpired(m, now, o.ttl))])
  }

  predicate Wanted(m: Message, inst: Instance, o: Options) {
    CacheKey(m) !in inst.cache && !IsExpired(m, inst.now, o.ttl)
  }

  function Examined(l: Lists, m: Message, inst: Instance, o: Options): Lists {
    l.(taken := l.taken + [m],
       dropped := if Wanted(m, inst, o) then l.dropped else l.dropped + [m])
  }

  /** The head of a list popped by housekeeping. */
  function PoppedNew(l: Lists, inst: Instance, o: Options): Lists
    requires l.recent != []
  {
    var l' := l.(recent := l.recent[1..]);
    match l.recent[0]
    case Corrupt(_) => l'
    case Entry(m) => Examined(l', m, inst, o)
  }

  function PoppedMain(l: Lists, inst: Instance, o: Options): Lists
    requires l.main != []
  {
    var l' := l.(main := l.main[1..]);
    match l.main[0]
    case Corrupt(_) => l'
    case Entry(m) => Examined(l', m, inst, o)
  }

  function Requeued(l: Lists, m: Message): Lists {
    l.(hk := l.hk + [Entry(m)])
  }

  /** The end of a housekeeping: `.hk` is deleted if N is zero, else renamed; renaming a list
      that does not exist fails and changes nothing. */
  function Committed(l: Lists, count: nat): Lists {
    if count == 0 then l.(hk := [], taken := [])
    else if l.hk == [] then l.(taken := [])
    else l.(main := l.hk, hk := [], taken := [])
  }

  function ListsAfter(s: System, i: nat, o: Options): Lists
    requires i in s.insts
  {
    var l, inst := s.lists, s.insts[i];
    match inst.pc
    case Putting(rest) => if rest == [] then l else Pushed(l, rest[0])
    case Getting(want) => if want == 0 || l.main == [] then l else Received(l, i, inst.now, o)
    case HkDelete => l.(hk := [])
    case HkPopMain => if l.main == [] then l else PoppedMain(l, inst, o)
    case HkPushMain(m) => Requeued(l, m)
    case HkPopNew => if l.recent == [] then l else PoppedNew(l, inst, o)
    case HkPushNew(m) => Requeued(l, m)
    case HkCommit => Committed(l, inst.count)
    case _ => l
  }

  // The effect of a command on the instance that issues it.

  function Examining(inst: Instance, line: Line, push: Message -> Pc, again: Pc, end: Pc, o: Options): Instance {
    match line
    case Corrupt(_) => inst.(pc := end)
    case Entry(m) => inst.(pc := if Wanted(m, inst, o) then push(m) else again,
                           cache := inst.cache + {CacheKey(m)})
  }

  function InstanceAfter(s: System, i: nat, wall: int, o: Options): Instance
    requires i in s.insts
  {
    var l, inst := s.lists, s.insts[i];
    match inst.pc
    case Idle => inst
    case Putting(rest) => inst.(pc := if rest == [] then Idle else Putting(rest[1..]))
    case GetStart(want) => inst.(pc := if s.lock.Some? then Idle else Getting(want))
    case Getting(want) =>
      if want == 0 || l.main == [] then inst.(pc := Idle)
      else (match l.main[0]
            case Corrupt(_) => inst.(pc := Idle)
            case Entry(m) => inst.(pc := Getting(if IsExpired(m, inst.now, o.ttl) then want else want - 1)))
    case HkStart => inst.(pc := if s.lastHk + o.housekeeping > wall then Idle else HkTest)
    case HkTest => inst.(pc := if s.lock.Some? then HkWait else HkAcquire)
    case HkWait => inst.(pc := if s.lock.Some? then HkWait else Idle)
    case HkAcquire => inst.(pc := HkLen)
    case HkLen => if l.main != [] then inst.(pc := HkRelease) else Instance(HkDelete, wall, 0, {})
    case HkDelete => inst.(pc := HkPopMain)
    case HkPopMain =>
      if l.main == [] then inst.(pc := HkPopNew)
      else Examining(inst, l.main[0], m => HkPushMain(m), HkPopMain, HkPopNew, o)
    case HkPushMain(_) => inst.(pc := HkPopMain, count := inst.count + 1)
    case HkPopNew =>
      if l.recent == [] then inst.(pc := HkCommit)
      else Examining(inst, l.recent[0], m => HkPushNew(m), HkPopNew, HkCommit, o)
    case HkPushNew(_) => inst.(pc := HkPopNew, count := inst.count + 1)
    case HkCommit => inst.(pc := HkStamp)
    case HkStamp => inst.(pc := HkRelease)
    case HkRelease => inst.(pc := Idle)
  }

  function LockAfter(s: System, i: nat): Option<nat>
    requires i in s.insts
  {
    match s.insts[i].pc
    case HkAcquire => Some(i)
    case HkRelease => None
    case _ => s.lock
  }

  function Call(s: System, i: nat, pc: Pc): System
    requires i in s.insts
  {
    s.(insts := s.insts[i := s.insts[i].(pc := pc)])
  }

  /** One Redis command of instance `i`, with the local code up to the next one. */
  function Command(s: System, i: nat, wall: int, o: Options): System
    requires i in s.insts
  {
    System(ListsAfter(s, i, o),
           LockAfter(s, i),
           if s.insts[i].pc.HkStamp? then s.insts[i].now else s.lastHk,
           s.insts[i := InstanceAfter(s, i, wall, o)])
  }

  function Next(s: System, step: Step, o: Options): System
    requires CanStep(s, step)
  {
    match step
    case CallPut(i, ms) => Call(s, i, Putting(ms))
    case CallGet(i, want) => Call(s, i, GetStart(want))
    case CallHousekeeping(i) => Call(s, i, HkStart)
    case Advance(i, wall) => Command(s, i, wall, o)
    case Intrude => s.(lists := s.lists.(recent := s.lists.recent + [Corrupt(true)]))
  }

  // The invariant.

  predicate Critical(pc: Pc) {
    pc.HkLen? || pc.HkDelete? || Merging(pc) || pc.HkStamp? || pc.HkRelease?
  }

  predicate Merging(pc: Pc) {
    pc.HkPopMain? || pc.HkPushMain? || pc.HkPopNew? || pc.HkPushNew? || pc.HkCommit?
  }

  /** Exactly the lock holder is in the critical section. */
  ghost predicate LockOk(s: System) {
    && (s.lock.Some? ==> s.lock.value in s.insts)
    && forall i | i in s.insts :: Critical(s.insts[i].pc) <==> s.lock == Some(i)
  }

  const NOBODY := Instance(Idle, 0, 0, {})

  function Holder(s: System): Instance {
    if s.lock.Some? && s.lock.value in s.insts then s.insts[s.lock.value] else NOBODY
  }

  function Hand(holder: Instance): seq<Message> {
    match holder.pc
    case HkPushMain(m) => [m]
    case HkPushNew(m) => [m]
    case _ => []
  }

  /** During a merge the main list is empty, and `.hk` with the message in hand is what the filter
      keeps of the messages popped so far.  Otherwise `.hk` is empty. */
  ghost predicate PhaseOk(l: Lists, holder: Instance, o: Options) {
    if Merging(holder.pc) then
      && l.main == [] && !holder.pc.HkPushMain?
      && holder.cache == Keys(l.taken)
      && l.hk == Entries(Readable(l.hk)) && holder.count == |l.hk|
      && Survivors(l.taken, holder.now, o.ttl) == Readable(l.hk) + Hand(holder)
      && (holder.pc.HkPopMain? ==> l.taken == [] && l.hk == [])
    else
      && l.taken == [] && l.hk == []
      && (holder.pc.HkDelete? ==> l.main == [] && holder.cache == {} && holder.count == 0)
  }

  function Logged(log: seq<Delivery>): (r: seq<Message>)
    ensures |r| == |log|
  {
    seq(|log|, i requires 0 <= i < |log| => log[i].m)
  }

  /** Where the messages are: waiting, in the housekeeper's hand, in `.hk`, ready, handed out or
      expired at a get, or dropped by a housekeeping. */
  function Everywhere(l: Lists, hand: seq<Message>): multiset<Message> {
    multiset(Readable(l.recent)) + multiset(hand) + multiset(Readable(l.hk))
    + multiset(Readable(l.main)) + multiset(Logged(l.log)) + multiset(l.dropped)
  }

  /** Everything pushed is in exactly one place, counted with multiplicity. */
  ghost predicate Conserved(l: Lists, hand: seq<Message>) {
    multiset(l.puts) == Everywhere(l, hand)
  }

  ghost predicate Inv(s: System, o: Options) {
    LockOk(s) && PhaseOk(s.lists, Holder(s), o) && Conserved(s.lists, Hand(Holder(s)))
  }

  // Refinement.

  function Abs(l: Lists): Fifo.Queue {
    Fifo.Queue(Readable(l.main), l.taken + Readable(l.recent))
  }

  function ActionOf(s: System, step: Step): Fifo.Action
    requires CanStep(s, step)
  {
    if !step.Advance? then Fifo.Stutter
    else
      match s.insts[step.i].pc
      case Putting(rest) => if rest == [] then Fifo.Stutter else Fifo.Put([rest[0]])
      case Getting(want) =>
        if want > 0 && s.lists.main != [] && s.lists.main[0].Entry? then Fifo.Take(1) else Fifo.Stutter
      case HkCommit => Fifo.Rotate(|s.lists.taken|, s.insts[step.i].now)
      case _ => Fifo.Stutter
  }

  ghost predicate Acts(l: Lists, a: Fifo.Action, l': Lists, o: Options) {
    Fifo.Enabled(Abs(l), a) && Abs(l') == Fifo.Apply(Abs(l), a, o.ttl)
  }

  // Each change of the lists: where the messages are, then phase and refinement.

  lemma ReadableSnoc(lines: seq<Line>, l: Line)
    ensures Readable(lines + [l]) == Readable(lines) + Decoded(l)
  {
    ReadableConcat(lines, [l]);
    assert Readable([l]) == Decoded(l);
  }

  lemma ReadableHead(lines: seq<Line>)
    requires lines != []
    ensures Readable(lines) == Decoded(lines[0]) + Readable(lines[1..])
    ensures lines[0].Corrupt? ==> Readable(lines) == Readable(lines[1..])
  {
  }

  /** Both lists and hands hold the same messages, up to one message `m` more among those pushed. */
  lemma SameEverywhere(l: Lists, hand: seq<Message>, l': Lists, hand': seq<Message>, more: multiset<Message>)
    requires Conserved(l, hand)
    requires multiset(l'.puts) == multiset(l.puts) + more
    requires Everywhere(l', hand') == Everywhere(l, hand) + more
    ensures Conserved(l', hand')
  {
  }

  lemma PushedConserved(l: Lists, m: Message, hand: seq<Message>)
    requires Conserved(l, hand)
    ensures Conserved(Pushed(l, m), hand)
  {
    var l' := Pushed(l, m);
    ReadableSnoc(l.recent, Entry(m));
    hide Readable, Logged, Conserved;
    assert multiset(Readable(l'.recent)) == multiset(Readable(l.recent)) + multiset{m};
    SameEverywhere(l, hand, l', hand, multiset{m});
  }

  lemma PushedActs(l: Lists, m: Message, o: Options)
    ensures Acts(l, Fifo.Put([m]), Pushed(l, m), o)
  {
    ReadableSnoc(l.recent, Entry(m));
    hide Readable;
    assert l.taken + (Readable(l.recent) + [m]) == (l.taken + Readable(l.recent)) + [m];
  }

  lemma PushedOk(l: Lists, m: Message, holder: Instance, o: Options)
    requires PhaseOk(l, holder, o) && Conserved(l, Hand(holder))
    ensures PhaseOk(Pushed(l, m), holder, o)
    ensures Conserved(Pushed(l, m), Hand(holder))
    ensures Acts(l, Fifo.Put([m]), Pushed(l, m), o)
  {
    PushedConserved(l, m, Hand(holder));
    PushedActs(l, m, o);
    hide Readable, Survivors, Entries, Keys, Conserved, Hand, Acts;
  }

  lemma IntrudedOk(l: Lists, holder: Instance, o: Options)
    requires PhaseOk(l, holder, o) && Conserved(l, Hand(holder))
    ensures var l' := l.(recent := l.recent + [Corrupt(true)]);
            PhaseOk(l', holder, o) && Conserved(l', Hand(holder)) && Acts(l, Fifo.Stutter, l', o)
  {
    ReadableSnoc(l.recent, Corrupt(true));
    hide Readable, Survivors, Entries, Logged, Keys, Hand;
    assert Readable(l.recent) + [] == Readable(l.recent);
  }

  lemma ReceivedConserved(l: Lists, i: nat, now: int, hand: seq<Message>, o: Options)
    requires l.main != [] && Conserved(l, hand)
    ensures Conserved(Received(l, i, now, o), hand)
  {
    var l' := Received(l, i, now, o);
    ReadableHead(l.main);
    if l.main[0].Entry? {
      assert Logged(l'.log) == Logged(l.log) + [l.main[0].m];
    }
    hide Readable, Logged, Conserved, IsExpired;
    SameEverywhere(l, hand, l', hand, multiset{});
  }

  lemma ReceivedActs(l: Lists, i: nat, now: int, o: Options)
    requires l.main != []
    ensures Acts(l, if l.main[0].Entry? then Fifo.Take(1) else Fifo.Stutter, Received(l, i, now, o), o)
  {
    ReadableHead(l.main);
    if l.main[0].Entry? {
      assert Readable(l.main)[1..] == Readable(l.main[1..]);
    }
    hide Readable, IsExpired;
  }

  lemma ReceivedOk(l: Lists, i: nat, now: int, holder: Instance, o: Options)
    requires l.main != [] && PhaseOk(l, holder, o) && Conserved(l, Hand(holder))
    ensures var l' := Received(l, i, now, o);
            && PhaseOk(l', holder, o) && Conserved(l', Hand(holder))
            && Acts(l, if l.main[0].Entry? then Fifo.Take(1) else Fifo.Stutter, l', o)
  {
    ReceivedConserved(l, i, now, Hand(holder), o);
    ReceivedActs(l, i, now, o);
    hide Readable, Survivors, Entries, Keys, IsExpired, Conserved, Hand, Acts;
  }

  lemma PoppedNewConserved(l: Lists, inst: Instance, hand: seq<Message>, o: Options)
    requires l.recent != [] && Conserved(l, [])
    requires hand == if l.recent[0].Entry? && Wanted(l.recent[0].m, inst, o) then [l.recent[0].m] else []
    ensures Conserved(PoppedNew(l, inst, o), hand)
  {
    ReadableHead(l.recent);
    hide Readable, Logged, Conserved, Wanted;
    SameEverywhere(l, [], PoppedNew(l, inst, o), hand, multiset{});
  }

  lemma PoppedNewPhase(l: Lists, inst: Instance, inst': Instance, o: Options)
    requires l.recent != [] && inst.pc.HkPopNew? && PhaseOk(l, inst, o)
    requires inst' == Examining(inst, l.recent[0], m => HkPushNew(m), HkPopNew, HkCommit, o)
    ensures PhaseOk(PoppedNew(l, inst, o), inst', o)
  {
    if l.recent[0].Entry? {
      var m := l.recent[0].m;
      KeysSnoc(l.taken, m);
      SurvivorsSnoc(l.taken, m, inst.now, o.ttl);
    }
    hide Readable, Survivors, Entries, IsExpired, CacheKey, Keys;
    assert (Readable(l.hk) + []) + Hand(inst') == Readable(l.hk) + Hand(inst');
    assert Readable(l.hk) + [] == Readable(l.hk);
  }

  lemma PoppedNewActs(l: Lists, inst: Instance, o: Options)
    requires l.recent != []
    ensures Acts(l, Fifo.Stutter, PoppedNew(l, inst, o), o)
  {
    ReadableHead(l.recent);
    hide Readable, Wanted;
    if l.recent[0].Entry? {
      var m, rest := l.recent[0].m, Readable(l.recent[1..]);
      assert l.taken + ([m] + rest) == (l.taken + [m]) + rest;
    }
  }

  lemma PoppedNewOk(l: Lists, inst: Instance, inst': Instance, o: Options)
    requires l.recent != [] && inst.pc.HkPopNew?
    requires PhaseOk(l, inst, o) && Conserved(l, Hand(inst))
    requires inst' == Examining(inst, l.recent[0], m => HkPushNew(m), HkPopNew, HkCommit, o)
    ensures var l' := PoppedNew(l, inst, o);
            PhaseOk(l', inst', o) && Conserved(l', Hand(inst')) && Acts(l, Fifo.Stutter, l', o)
  {
    PoppedNewConserved(l, inst, Hand(inst'), o);
    PoppedNewPhase(l, inst, inst', o);
    PoppedNewActs(l, inst, o);
    hide *;
  }

  lemma RequeuedConserved(l: Lists, m: Message)
    requires Conserved(l, [m])
    ensures Conserved(Requeued(l, m), [])
  {
    ReadableSnoc(l.hk, Entry(m));
    hide Readable, Logged, Conserved;
    SameEverywhere(l, [m], Requeued(l, m), [], multiset{});
  }

  lemma RequeuedPhase(l: Lists, inst: Instance, inst': Instance, o: Options)
    requires inst.pc.HkPushNew? && PhaseOk(l, inst, o)
    requires inst' == inst.(pc := HkPopNew, count := inst.count + 1)
    ensures PhaseOk(Requeued(l, inst.pc.m), inst', o)
  {
    var m := inst.pc.m;
    ReadableSnoc(l.hk, Entry(m));
    assert Entries(Readable(l.hk)) + [Entry(m)] == Entries(Readable(l.hk) + [m]);
    hide Readable, Survivors, Entries, Keys;
    assert (Readable(l.hk) + [m]) + [] == Readable(l.hk) + [m];
  }

  lemma RequeuedOk(l: Lists, inst: Instance, inst': Instance, o: Options)
    requires inst.pc.HkPushNew? && PhaseOk(l, inst, o) && Conserved(l, Hand(inst))
    requires inst' == inst.(pc := HkPopNew, count := inst.count + 1)
    ensures var l' := Requeued(l, inst.pc.m);
            PhaseOk(l', inst', o) && Conserved(l', Hand(inst')) && Acts(l, Fifo.Stutter, l', o)
  {
    RequeuedConserved(l, inst.pc.m);
    RequeuedPhase(l, inst, inst', o);
    hide PhaseOk, Conserved, Readable;
  }

  lemma CommittedConserved(l: Lists, count: nat)
    requires Conserved(l, []) && l.main == [] && count == |l.hk|
    ensures Conserved(Committed(l, count), [])
  {
    assert Readable([]) == [];
    hide Readable, Logged, Conserved;
    SameEverywhere(l, [], Committed(l, count), [], multiset{});
  }

  lemma CommittedActs(l: Lists, inst: Instance, o: Options)
    requires l.main == [] && inst.count == |l.hk| && Readable(l.hk) == Survivors(l.taken, inst.now, o.ttl)
    ensures Acts(l, Fifo.Rotate(|l.taken|, inst.now), Committed(l, inst.count), o)
  {
    assert Readable([]) == [];
    hide Readable, Survivors;
    var waiting := l.taken + Readable(l.recent);
    assert waiting[..|l.taken|] == l.taken && waiting[|l.taken|..] == Readable(l.recent);
    assert [] + Readable(l.recent) == Readable(l.recent);
  }

  /** The rename never overwrites a message: the main list is empty, and N is the length of `.hk`. */
  lemma CommittedOk(l: Lists, inst: Instance, inst': Instance, o: Options)
    requires inst.pc.HkCommit? && PhaseOk(l, inst, o) && Conserved(l, Hand(inst))
    requires inst' == inst.(pc := HkStamp)
    ensures l.main == [] && inst.count == |l.hk|
    ensures var l' := Committed(l, inst.count);
            && PhaseOk(l', inst', o) && Conserved(l', Hand(inst'))
            && Acts(l, Fifo.Rotate(|l.taken|, inst.now), l', o)
  {
    hide Readable, Survivors, Entries, Logged, Keys, Conserved, Acts;
    assert Readable(l.hk) + [] == Readable(l.hk);
    CommittedConserved(l, inst.count);
    CommittedActs(l, inst, o);
  }

  // Steps.

  /** What a command does to being in the critical section. */
  lemma CriticalAfter(s: System, i: nat, wall: int, o: Options)
    requires i in s.insts
    ensures var pc := s.insts[i].pc;
            Critical(InstanceAfter(s, i, wall, o).pc) <==> pc.HkAcquire? || (Critical(pc) && !pc.HkRelease?)
  {
    hide IsExpired, CacheKey, Wanted;
  }

  lemma LockOkStep(s: System, step: Step, o: Options)
    requires LockOk(s) && CanStep(s, step)
    ensures LockOk(Next(s, step, o))
    ensures step.Advance? && !Critical(s.insts[step.i].pc) && !s.insts[step.i].pc.HkAcquire? ==>
              Holder(Next(s, step, o)) == Holder(s)
    ensures step.Advance? && Critical(s.insts[step.i].pc) ==>
              && Holder(s) == s.insts[step.i]
              && Holder(Next(s, step, o)) == if s.insts[step.i].pc.HkRelease? then NOBODY
                                             else Next(s, step, o).insts[step.i]
    ensures !step.Advance? ==> Holder(Next(s, step, o)) == Holder(s)
  {
    hide ListsAfter, IsExpired, CacheKey, Wanted;
    if step.Advance? {
      CriticalAfter(s, step.i, step.wall, o);
      hide InstanceAfter;
    }
  }

  ghost predicate Good(s: System, step: Step, o: Options)
    requires CanStep(s, step)
  {
    Inv(Next(s, step, o), o) && Acts(s.lists, ActionOf(s, step), Next(s, step, o).lists, o)
  }

  /** What has to be shown of a command, given who holds the lock after it. */
  ghost predicate Works(l: Lists, a: Fifo.Action, l': Lists, holder': Instance, o: Options) {
    PhaseOk(l', holder', o) && Conserved(l', Hand(holder')) && Acts(l, a, l', o)
  }

  lemma WorksIsGood(s: System, i: nat, wall: int, o: Options)
    requires Inv(s, o) && CanStep(s, Advance(i, wall))
    requires var s' := Command(s, i, wall, o);
             Works(s.lists, ActionOf(s, Advance(i, wall)), ListsAfter(s, i, o), Holder(s'), o)
    ensures Good(s, Advance(i, wall), o)
  {
    LockOkStep(s, Advance(i, wall), o);
    hide LockOk, PhaseOk, Conserved, Acts, Holder, ActionOf, ListsAfter, InstanceAfter, LockAfter, Hand;
  }

  /** Moving on without touching a list: the phases this may lead from and to. */
  ghost predicate QuietMove(l: Lists, holder: Instance, holder': Instance) {
    || holder' == holder
    || (!Merging(holder.pc) && !Merging(holder'.pc) && !holder'.pc.HkDelete?)
    || (holder.pc.HkLen? && l.main == [] && holder'.pc.HkDelete? && holder'.cache == {} && holder'.count == 0)
    || (holder.pc.HkDelete? && holder' == holder.(pc := HkPopMain))
    || (holder.pc.HkPopMain? && holder' == holder.(pc := HkPopNew))
    || (holder.pc.HkPopNew? && holder' == holder.(pc := HkCommit))
  }

  lemma QuietHand(l: Lists, holder: Instance, holder': Instance, o: Options)
    requires PhaseOk(l, holder, o) && QuietMove(l, holder, holder')
    ensures Hand(holder') == Hand(holder)
  {
    hide PhaseOk;
  }

  lemma QuietPhase(l: Lists, holder: Instance, holder': Instance, o: Options)
    requires PhaseOk(l, holder, o) && QuietMove(l, holder, holder')
    ensures PhaseOk(l, holder', o)
  {
    QuietHand(l, holder, holder', o);
    assert Survivors([], holder.now, o.ttl) == [] && Readable([]) == [] && Entries([]) == [] && Keys([]) == {};
    hide Readable, Keys, Survivors, Entries, Hand;
    if holder.pc.HkDelete? && holder' == holder.(pc := HkPopMain) {
      assert Hand(holder) == [];
    }
  }

  lemma QuietWorks(l: Lists, l': Lists, holder: Instance, holder': Instance, o: Options)
    requires PhaseOk(l, holder, o) && Conserved(l, Hand(holder)) && QuietMove(l, holder, holder')
    requires l' == l || (holder.pc.HkDelete? && l' == l.(hk := []))
    ensures Works(l, Fifo.Stutter, l', holder', o)
  {
    assert l' == l;
    QuietPhase(l, holder, holder', o);
    QuietHand(l, holder, holder', o);
    hide PhaseOk, Conserved, Hand, Abs, QuietMove;
  }

  lemma UnheldMove(s: System, i: nat, wall: int, o: Options)
    requires LockOk(s) && CanStep(s, Advance(i, wall)) && !Critical(s.insts[i].pc)
    ensures QuietMove(s.lists, Holder(s), Holder(Command(s, i, wall, o)))
    ensures s.insts[i].pc.Putting? || s.insts[i].pc.Getting? ==> Holder(Command(s, i, wall, o)) == Holder(s)
  {
    LockOkStep(s, Advance(i, wall), o);
    hide ListsAfter;
  }

  lemma UnheldLists(s: System, i: nat, wall: int, o: Options)
    requires CanStep(s, Advance(i, wall)) && !Critical(s.insts[i].pc)
    ensures var inst, l := s.insts[i], s.lists;
            if inst.pc.Putting? && inst.pc.rest != [] then
              && ListsAfter(s, i, o) == Pushed(l, inst.pc.rest[0])
              && ActionOf(s, Advance(i, wall)) == Fifo.Put([inst.pc.rest[0]])
            else if inst.pc.Getting? && inst.pc.want > 0 && l.main != [] then
              && ListsAfter(s, i, o) == Received(l, i, inst.now, o)
              && ActionOf(s, Advance(i, wall)) == if l.main[0].Entry? then Fifo.Take(1) else Fifo.Stutter
            else ListsAfter(s, i, o) == l && ActionOf(s, Advance(i, wall)) == Fifo.Stutter
  {
    hide Pushed, Received;
  }

  lemma UnheldStep(s: System, i: nat, wall: int, o: Options)
    requires Inv(s, o) && CanStep(s, Advance(i, wall)) && !Critical(s.insts[i].pc)
    ensures Good(s, Advance(i, wall), o)
  {
    UnheldMove(s, i, wall, o);
    UnheldLists(s, i, wall, o);
    hide LockOk, PhaseOk, Conserved, Acts, Holder, Hand, QuietMove, Good, Command, ListsAfter, ActionOf;
    hide Pushed, Received, Critical;
    var inst, holder := s.insts[i], Holder(s);
    if inst.pc.Putting? && inst.pc.rest != [] {
      PushedOk(s.lists, inst.pc.rest[0], holder, o);
    } else if inst.pc.Getting? && inst.pc.want > 0 && s.lists.main != [] {
      ReceivedOk(s.lists, i, inst.now, holder, o);
    } else {
      QuietWorks(s.lists, s.lists, holder, Holder(Command(s, i, wall, o)), o);
    }
    WorksIsGood(s, i, wall, o);
  }

  lemma HeldHolder(s: System, i: nat, wall: int, o: Options)
    requires Inv(s, o) && CanStep(s, Advance(i, wall)) && Critical(s.insts[i].pc)
    ensures Holder(s) == s.insts[i]
    ensures Holder(Command(s, i, wall, o))
         == if s.insts[i].pc.HkRelease? then NOBODY else InstanceAfter(s, i, wall, o)
    ensures PhaseOk(s.lists, s.insts[i], o) && Conserved(s.lists, Hand(s.insts[i]))
    ensures s.insts[i].pc.HkPopMain? ==> s.lists.main == []
    ensures !s.insts[i].pc.HkPushMain?
  {
    LockOkStep(s, Advance(i, wall), o);
    hide ListsAfter, InstanceAfter, Conserved, LockOk;
  }

  lemma HeldMove(s: System, i: nat, wall: int, o: Options)
    requires Inv(s, o) && CanStep(s, Advance(i, wall)) && Critical(s.insts[i].pc)
    requires !s.insts[i].pc.HkPushNew? && !s.insts[i].pc.HkCommit?
    requires s.insts[i].pc.HkPopNew? ==> s.lists.recent == []
    ensures QuietMove(s.lists, s.insts[i], Holder(Command(s, i, wall, o)))
    ensures var l, l' := s.lists, ListsAfter(s, i, o);
            l' == l || (s.insts[i].pc.HkDelete? && l' == l.(hk := []))
  {
    HeldHolder(s, i, wall, o);
    hide PhaseOk, Conserved, LockOk, Holder, Command;
  }

  lemma HeldStep(s: System, i: nat, wall: int, o: Options)
    requires Inv(s, o) && CanStep(s, Advance(i, wall)) && Critical(s.insts[i].pc)
    ensures Good(s, Advance(i, wall), o)
  {
    HeldHolder(s, i, wall, o);
    hide LockOk, PhaseOk, Conserved, Acts, Holder, Hand, QuietMove, Good, Command, Inv;
    hide Pushed, Received, PoppedNew, PoppedMain, Requeued, Committed, Examining;
    var l, inst, inst' := s.lists, s.insts[i], InstanceAfter(s, i, wall, o);
    if inst.pc.HkPopNew? && l.recent != [] {
      PoppedNewOk(l, inst, inst', o);
    } else if inst.pc.HkPushNew? {
      RequeuedOk(l, inst, inst', o);
    } else if inst.pc.HkCommit? {
      CommittedOk(l, inst, inst', o);
    } else {
      HeldMove(s, i, wall, o);
      QuietWorks(l, ListsAfter(s, i, o), inst, Holder(Command(s, i, wall, o)), o);
    }
    WorksIsGood(s, i, wall, o);
  }

  /** Every command of every instance, at any moment, keeps the invariant and is an action of the
      FIFO queue. */
  lemma InvStep(s: System, step: Step, o: Options)
    requires Inv(s, o) && CanStep(s, step)
    ensures Inv(Next(s, step, o), o)
    ensures Acts(s.lists, ActionOf(s, step), Next(s, step, o).lists, o)
  {
    LockOkStep(s, step, o);
    match step
    case Intrude => IntrudedOk(s.lists, Holder(s), o);
    case Advance(i, wall) =>
      if Critical(s.insts[i].pc) {
        HeldStep(s, i, wall, o);
      } else {
        UnheldStep(s, i, wall, o);
      }
    case _ =>
      hide Conserved, PhaseOk, LockOk, Holder, Readable;
  }

  // Runs.

  ghost predicate CanRun(s: System, steps: seq<Step>, o: Options)
    decreases |steps|
  {
    steps == [] || (CanStep(s, steps[0]) && CanRun(Next(s, steps[0], o), steps[1..], o))
  }

  ghost function Run(s: System, steps: seq<Step>, o: Options): System
    requires CanRun(s, steps, o)
    decreases |steps|
  {
    if steps == [] then s else Run(Next(s, steps[0], o), steps[1..], o)
  }

  /** The history of the FIFO queue this run is a run of. */
  ghost function Shadow(s: System, h: Fifo.History, steps: seq<Step>, o: Options): Fifo.History
    requires CanRun(s, steps, o) && Inv(s, o)
    decreases |steps|
  {
    if steps == [] then h
    else
      InvStep(s, steps[0], o);
      Shadow(Next(s, steps[0], o), Fifo.Record(h, Abs(s.lists), ActionOf(s, steps[0])), steps[1..], o)
  }

  /** The lists and the FIFO history tell the same story. */
  ghost predicate Matches(l: Lists, h: Fifo.History, o: Options) {
    Fifo.Explained(Abs(l), h, o.ttl) && h.puts == l.puts && h.taken == Logged(l.log)
  }

  lemma MatchesStep(s: System, h: Fifo.History, step: Step, o: Options)
    requires Inv(s, o) && CanStep(s, step) && Matches(s.lists, h, o)
    ensures Fifo.Enabled(Abs(s.lists), ActionOf(s, step))
    ensures Matches(Next(s, step, o).lists, Fifo.Record(h, Abs(s.lists), ActionOf(s, step)), o)
  {
    InvStep(s, step, o);
    Fifo.ExplainedStep(Abs(s.lists), h, ActionOf(s, step), o.ttl);
    LogStep(s, step, o);
    hide Inv, Fifo.Explained, Abs, Logged, Next;
  }

  /** What a command adds to the records: to the log one delivery when it takes a message. */
  lemma CommandLogs(s: System, i: nat, o: Options)
    requires i in s.insts
    ensures var l, l', pc := s.lists, ListsAfter(s, i, o), s.insts[i].pc;
            && l'.puts == (if pc.Putting? && pc.rest != [] then l.puts + [pc.rest[0]] else l.puts)
            && if pc.Getting? && pc.want > 0 && l.main != [] && l.main[0].Entry? then
                 |l'.log| == |l.log| + 1 && l'.log[..|l.log|] == l.log && l'.log[|l.log|].m == l.main[0].m
               else l'.log == l.log
  {
    hide IsExpired, Wanted, CacheKey;
  }

  lemma LogStep(s: System, step: Step, o: Options)
    requires CanStep(s, step) && Fifo.Enabled(Abs(s.lists), ActionOf(s, step))
    ensures var l, l', a := s.lists, Next(s, step, o).lists, ActionOf(s, step);
            && l'.puts == (if a.Put? then l.puts + a.ms else l.puts)
            && Logged(l'.log) == Logged(l.log) + (if a.Take? then Abs(l).ready[..a.n] else [])
  {
    var l, l', a := s.lists, Next(s, step, o).lists, ActionOf(s, step);
    hide InstanceAfter, ListsAfter, LockAfter;
    if step.Advance? {
      CommandLogs(s, step.i, o);
    }
    if a.Take? {
      ReadableHead(l.main);
      assert Logged(l'.log) == Logged(l.log) + [l.main[0].m];
      assert Abs(l).ready[..1] == [l.main[0].m];
    } else {
      assert l'.log == l.log;
      assert Logged(l.log) + [] == Logged(l.log);
    }
  }

  lemma {:induction false} RunOk(s: System, h: Fifo.History, steps: seq<Step>, o: Options)
    requires Inv(s, o) && CanRun(s, steps, o) && Matches(s.lists, h, o)
    ensures Inv(Run(s, steps, o), o)
    ensures Matches(Run(s, steps, o).lists, Shadow(s, h, steps, o), o)
    decreases |steps|
  {
    if steps != [] {
      InvStep(s, steps[0], o);
      MatchesStep(s, h, steps[0], o);
      hide Inv, Matches, Next, ActionOf, CanStep;
      RunOk(Next(s, steps[0], o), Fifo.Record(h, Abs(s.lists), ActionOf(s, steps[0])), steps[1..], o);
    }
  }

  const NO_LISTS := Lists([], [], [], [], [], [], [])

  /** Any instances, none of them in a call, with nothing stored. */
  ghost predicate Initial(s: System) {
    s.lists == NO_LISTS && s.lock.None? && forall i | i in s.insts :: s.insts[i].pc.Idle?
  }

  lemma InitialOk(s: System, o: Options)
    requires Initial(s)
    ensures Inv(s, o) && Matches(s.lists, Fifo.NO_HISTORY, o)
  {
    assert Readable([]) == [] && Logged([]) == [];
    var l := s.lists;
    assert l.taken + Readable(l.recent) == [];
  }

  /** In every reachable state of every interleaving of any number of instances: each message
      pushed is in exactly one of the waiting list, the housekeeper's hand, `.hk`, the main list,
      the log of pops (one instance each), or the drops of a housekeeping; and the pops, over all
      instances, are an order-preserving subsequence of the pushes that hands out, generation by
      generation, exactly what the filter keeps. */
  lemma SharedFifo(s: System, steps: seq<Step>, o: Options)
    requires Initial(s) && CanRun(s, steps, o)
    ensures var l, hand := Run(s, steps, o).lists, Hand(Holder(Run(s, steps, o)));
            && multiset(l.puts) == Everywhere(l, hand)
            && IsSubseq(Logged(l.log), l.puts)
    ensures var l := Run(s, steps, o).lists;
            exists gens ::
              && Fifo.Kept(gens, o.ttl) == Logged(l.log) + Readable(l.main)
              && l.puts == Fifo.Members(gens) + (l.taken + Readable(l.recent))
  {
    InitialOk(s, o);
    RunOk(s, Fifo.NO_HISTORY, steps, o);
    var l, h := Run(s, steps, o).lists, Shadow(s, Fifo.NO_HISTORY, steps, o);
    Fifo.KeptInOrder(h.gens, o.ttl);
    var waiting := l.taken + Readable(l.recent);
    SubseqExtend(Fifo.Kept(h.gens, o.ttl), Fifo.Members(h.gens), waiting);
    SubseqPrefix(Logged(l.log), Readable(l.main), l.puts);
    assert Fifo.Kept(h.gens, o.ttl) == Logged(l.log) + Readable(l.main);
  }

  // What the calls of one instance come to.

  /** The messages handed to the puts of an instance, in order. */
  function Given(steps: seq<Step>, i: nat): seq<Message> {
    if steps == [] then []
    else (if steps[0].CallPut? && steps[0].i == i then steps[0].ms else []) + Given(steps[1..], i)
  }

  /** The messages that a put under way has still to push. */
  function Rest(s: System, i: nat): seq<Message> {
    if i in s.insts && s.insts[i].pc.Putting? then s.insts[i].pc.rest else []
  }

  /** What a command of the instance adds to the messages pushed. */
  ghost function PushedIn(s: System, step: Step, o: Options, i: nat): seq<Message>
    requires CanStep(s, step)
  {
    var old', new' := s.lists.puts, Next(s, step, o).lists.puts;
    if step.Advance? && step.i == i && |old'| <= |new'| then new'[|old'|..] else []
  }

  ghost function PushedBy(s: System, steps: seq<Step>, o: Options, i: nat): seq<Message>
    requires CanRun(s, steps, o)
    decreases |steps|
  {
    if steps == [] then []
    else PushedIn(s, steps[0], o, i) + PushedBy(Next(s, steps[0], o), steps[1..], o, i)
  }

  lemma PutStep(s: System, step: Step, o: Options, i: nat)
    requires CanStep(s, step) && i in s.insts
    ensures i in Next(s, step, o).insts
    ensures PushedIn(s, step, o, i) + Rest(Next(s, step, o), i)
         == Rest(s, i) + if step.CallPut? && step.i == i then step.ms else []
    ensures PushedIn(s, step, o, i) != [] ==>
              && Next(s, step, o).lists.recent == s.lists.recent + Entries(PushedIn(s, step, o, i))
              && Next(s, step, o).lists.puts == s.lists.puts + PushedIn(s, step, o, i)
    ensures s.lists.puts <= Next(s, step, o).lists.puts
  {
    hide IsExpired, CacheKey, Wanted;
    PushesOne(s, step, o);
    if step.Advance? && step.i == i {
      assert Rest(s, i) == [] || Rest(s, i) == [Rest(s, i)[0]] + Rest(s, i)[1..];
    }
  }

  /** A command pushes the first message that is left of a put, or none. */
  lemma PushesOne(s: System, step: Step, o: Options)
    requires CanStep(s, step)
    ensures var ms := if step.Advance? && Rest(s, step.i) != [] then [Rest(s, step.i)[0]] else [];
            && Next(s, step, o).lists.puts == s.lists.puts + ms
            && (ms != [] ==> Next(s, step, o).lists.recent == s.lists.recent + Entries(ms))
  {
    if step.Advance? {
      CommandLogs(s, step.i, o);
      hide InstanceAfter, LockAfter, IsExpired, CacheKey, Wanted;
      assert s.lists.puts + [] == s.lists.puts;
    }
  }

  lemma Handover<T>(rest: seq<T>, now: seq<T>, later: seq<T>, pushed: seq<T>, rest': seq<T>, more: seq<T>, end: seq<T>)
    requires pushed + rest' == rest + now && rest' + later == more + end
    ensures rest + (now + later) == (pushed + more) + end
  {
    assert rest + (now + later) == (rest + now) + later == pushed + (rest' + later) == pushed + (more + end);
  }

  /** Over every interleaving: what an instance was given to put is what it has pushed, in order, and then
      what it still has to push; so an instance that is not in a call has pushed all it was given. */
  lemma {:induction false} PutsArrive(s: System, steps: seq<Step>, o: Options, i: nat)
    requires CanRun(s, steps, o) && i in s.insts
    ensures Rest(s, i) + Given(steps, i) == PushedBy(s, steps, o, i) + Rest(Run(s, steps, o), i)
    ensures s.insts[i].pc.Idle? && i in Run(s, steps, o).insts && Run(s, steps, o).insts[i].pc.Idle? ==>
              PushedBy(s, steps, o, i) == Given(steps, i)
    decreases |steps|
  {
    if steps != [] {
      var t := Next(s, steps[0], o);
      PutStep(s, steps[0], o, i);
      PutsArrive(t, steps[1..], o, i);
      var given := if steps[0].CallPut? && steps[0].i == i then steps[0].ms else [];
      var pushed, more := PushedIn(s, steps[0], o, i), PushedBy(t, steps[1..], o, i);
      hide Next, CanStep, PushedIn;
      Handover(Rest(s, i), given, Given(steps[1..], i), pushed, Rest(t, i), more, Rest(Run(s, steps, o), i));
    }
  }

  /** What an instance has pushed is found among all pushes in the order in which it was given. */
  lemma {:induction false} PushesInOrder(s: System, steps: seq<Step>, o: Options, i: nat)
    requires CanRun(s, steps, o) && i in s.insts
    ensures var l, l' := s.lists, Run(s, steps, o).lists;
            l.puts <= l'.puts && IsSubseq(PushedBy(s, steps, o, i), l'.puts[|l.puts|..])
    decreases |steps|
  {
    if steps != [] {
      var t := Next(s, steps[0], o);
      PutStep(s, steps[0], o, i);
      hide Next, CanStep;
      PushesInOrder(t, steps[1..], o, i);
      var mine := PushedIn(s, steps[0], o, i);
      var p, q, r := s.lists.puts, t.lists.puts, Run(s, steps, o).lists.puts;
      assert mine == q[|p|..] || mine == [];
      hide PushedIn, PushedBy, Run, CanRun;
      SubseqRefl(q[|p|..]);
      SubseqConcat(mine, q[|p|..], PushedBy(t, steps[1..], o, i), r[|q|..]);
      Extended(p, q, r);
    }
  }

  lemma Extended<T>(p: seq<T>, q: seq<T>, r: seq<T>)
    requires p <= q <= r
    ensures q[|p|..] + r[|q|..] == r[|p|..]
  {
  }

  /** The unexpired messages that an instance has received. */
  function Handed(log: seq<Delivery>, i: nat): nat {
    if log == [] then 0
    else
      var d := log[|log| - 1];
      Handed(log[..|log| - 1], i) + if d.to == i && !d.expired then 1 else 0
  }

  /** How many messages an instance asked for in all its gets. */
  function Asked(steps: seq<Step>, i: nat): nat {
    if steps == [] then 0
    else (if steps[0].CallGet? && steps[0].i == i then steps[0].want else 0) + Asked(steps[1..], i)
  }

  /** How many a get under way may still receive. */
  function Owing(s: System, i: nat): nat {
    if i !in s.insts then 0
    else
      match s.insts[i].pc
      case GetStart(want) => want
      case Getting(want) => want
      case _ => 0
  }

  /** What a command leaves a get short of: all it may still receive, when a housekeeping holds the lock
      at its start, or when it finds the main list empty or a line in it that cannot be decoded. */
  function Short(s: System, step: Step, i: nat): nat
    requires CanStep(s, step)
  {
    if !step.Advance? || step.i != i then 0
    else
      match s.insts[i].pc
      case GetStart(want) => if s.lock.Some? then want else 0
      case Getting(want) => if s.lists.main == [] || s.lists.main[0].Corrupt? then want else 0
      case _ => 0
  }

  ghost function AllShort(s: System, steps: seq<Step>, o: Options, i: nat): nat
    requires CanRun(s, steps, o)
    decreases |steps|
  {
    if steps == [] then 0 else Short(s, steps[0], i) + AllShort(Next(s, steps[0], o), steps[1..], o, i)
  }

  lemma HandedSnoc(log: seq<Delivery>, d: Delivery, i: nat)
    ensures Handed(log + [d], i) == Handed(log, i) + if d.to == i && !d.expired then 1 else 0
  {
    assert (log + [d])[..|log|] == log;
  }

  /** A command delivers the head of the main list to the instance that asks for it, or nothing. */
  lemma DeliversHead(s: System, i: nat, o: Options)
    requires i in s.insts
    ensures var l, l', pc := s.lists, ListsAfter(s, i, o).log, s.insts[i].pc;
            l' == if pc.Getting? && pc.want > 0 && l.main != [] && l.main[0].Entry?
                  then l.log + [Delivery(i, l.main[0].m, IsExpired(l.main[0].m, s.insts[i].now, o.ttl))]
                  else l.log
  {
    hide IsExpired, Wanted, CacheKey;
  }

  lemma GetStep(s: System, step: Step, o: Options, i: nat)
    requires CanStep(s, step) && i in s.insts
    ensures i in Next(s, step, o).insts
    ensures Owing(s, i) + (if step.CallGet? && step.i == i then step.want else 0) + Handed(s.lists.log, i)
         == Handed(Next(s, step, o).lists.log, i) + Short(s, step, i) + Owing(Next(s, step, o), i)
  {
    hide IsExpired, CacheKey, Wanted, ListsAfter;
    if step.Advance? {
      DeliversHead(s, step.i, o);
      var l := s.lists;
      if l.main != [] && l.main[0].Entry? {
        HandedSnoc(l.log, Delivery(step.i, l.main[0].m, IsExpired(l.main[0].m, s.insts[step.i].now, o.ttl)), i);
      }
    }
    hide Handed;
  }

  /** Over every interleaving: what an instance asked for in its gets is what it received unexpired, what
      its gets were left short of, and what the one under way may still receive. So a get never gives more
      than was asked for, and less only when the lock was held, or the main list was empty or damaged. */
  lemma {:induction false} GetsGive(s: System, steps: seq<Step>, o: Options, i: nat)
    requires CanRun(s, steps, o) && i in s.insts
    ensures Owing(s, i) + Asked(steps, i) + Handed(s.lists.log, i)
         == Handed(Run(s, steps, o).lists.log, i) + AllShort(s, steps, o, i) + Owing(Run(s, steps, o), i)
    decreases |steps|
  {
    if steps != [] {
      GetStep(s, steps[0], o, i);
      hide Next, CanStep, Short, Owing, Handed;
      GetsGive(Next(s, steps[0], o), steps[1..], o, i);
    }
  }

  // When a housekeeping does nothing.

  lemma TwoMore(s: System, one: Step, two: Step, o: Options)
    requires CanStep(s, one) && CanStep(Next(s, one, o), two)
    ensures CanRun(s, [one, two], o) && Run(s, [one, two], o) == Next(Next(s, one, o), two, o)
  {
    hide Next, CanStep;
    assert [one, two][1..] == [two] && [two][1..] == [];
    assert CanRun(Next(s, one, o), [two], o);
    assert Run(Next(s, one, o), [two], o) == Next(Next(s, one, o), two, o);
  }

  /** A housekeeping asked for before the period is over leaves everything as it was; and one asked for
      afterwards goes on. */
  lemma TooSoonIff(s: System, i: nat, wall: int, o: Options)
    requires i in s.insts && s.insts[i].pc.Idle?
    ensures var steps := [CallHousekeeping(i), Advance(i, wall)];
            CanRun(s, steps, o) && (Run(s, steps, o) == s <==> wall < s.lastHk + o.housekeeping)
  {
    TwoMore(s, CallHousekeeping(i), Advance(i, wall), o);
    var t := Run(s, [CallHousekeeping(i), Advance(i, wall)], o);
    assert t.insts == s.insts[i := t.insts[i]];
    assert s.insts[i := s.insts[i]] == s.insts;
  }

  /** One that finds the lock held waits until it is free, and then returns without having changed
      anything. */
  lemma WaitsOnly(s: System, i: nat, wall: int, o: Options)
    requires i in s.insts && (s.insts[i].pc.HkTest? || s.insts[i].pc.HkWait?)
    requires s.insts[i].pc.HkTest? ==> s.lock.Some?
    ensures var t := Next(s, Advance(i, wall), o);
            && t == s.(insts := s.insts[i := s.insts[i].(pc := t.insts[i].pc)])
            && t.insts[i].pc == if s.lock.Some? then HkWait else Idle
  {
  }

  /** One that finds messages left in the main list frees the lock and returns without having changed
      anything else; one that does not begins to merge, with an empty cache, a count of 0 and the time at
      which it looked. */
  lemma LeavesLeft(s: System, i: nat, wall: int, later: int, o: Options)
    requires LockOk(s) && i in s.insts && s.insts[i].pc.HkLen?
    ensures s.lists.main != [] ==>
              CanStep(Next(s, Advance(i, wall), o), Advance(i, later))
              && Next(Next(s, Advance(i, wall), o), Advance(i, later), o)
              == s.(lock := None, insts := s.insts[i := s.insts[i].(pc := Idle)])
    ensures s.lists.main == [] ==>
              Next(s, Advance(i, wall), o) == s.(insts := s.insts[i := Instance(HkDelete, wall, 0, {})])
  {
  }

  /** The time of the last housekeeping changes when one is done merging, to the time at which it began. */
  lemma StampedBy(s: System, step: Step, o: Options)
    requires CanStep(s, step)
    ensures Next(s, step, o).lastHk != s.lastHk ==>
              && step.Advance? && s.insts[step.i].pc.HkStamp? && Next(s, step, o).lastHk == s.insts[step.i].now
              && Next(s, step, o).insts[step.i].pc.HkRelease?
    ensures step.Advance? && s.insts[step.i].pc.HkStamp? ==> Next(s, step, o).lastHk == s.insts[step.i].now
  {
    hide ListsAfter, IsExpired, CacheKey, Wanted;
  }

  /** How many commands an instance may still need, as things are, before it is back from its call. */
  function Needs(s: System, i: nat): nat
    requires i in s.insts
  {
    var m, r := |s.lists.main|, |s.lists.recent|;
    match s.insts[i].pc
    case Idle => 0
    case Putting(rest) => 1 + |rest|
    case GetStart(_) => 2 + m
    case Getting(_) => 1 + m
    case HkStart => 11 + 2 * m + 2 * r
    case HkTest => 10 + 2 * m + 2 * r
    case HkWait => 1
    case HkAcquire => 9 + 2 * m + 2 * r
    case HkLen => 8 + 2 * m + 2 * r
    case HkDelete => 7 + 2 * m + 2 * r
    case HkPopMain => 5 + 2 * m + 2 * r
    case HkPushMain(_) => 6 + 2 * m + 2 * r
    case HkPopNew => 4 + 2 * r
    case HkPushNew(_) => 5 + 2 * r
    case HkCommit => 3
    case HkStamp => 2
    case HkRelease => 1
  }

  /** What a command pops from the lists. */
  lemma CommandPops(s: System, i: nat, o: Options)
    requires i in s.insts
    ensures var l, l', pc := s.lists, ListsAfter(s, i, o), s.insts[i].pc;
            && (pc.HkPopMain? || pc.Getting? ==> |l'.main| <= |l.main| && l'.recent == l.recent)
            && (l.main != [] && (pc.HkPopMain? || (pc.Getting? && pc.want > 0)) ==> |l'.main| < |l.main|)
            && (pc.HkPopNew? && l.recent != [] ==> |l'.recent| < |l.recent|)
            && (pc.HkPopNew? ==> |l'.recent| <= |l.recent|)
            && (!pc.HkPopMain? && !pc.Getting? && !pc.HkCommit? ==> l'.main == l.main)
            && (!pc.HkPopNew? && !pc.Putting? ==> l'.recent == l.recent)
  {
    hide IsExpired, Wanted, CacheKey;
  }

  /** No call goes on for ever by itself: every command brings an instance nearer to its return, but for a
      housekeeping that waits while another one holds the lock. */
  lemma EachCommandCounts(s: System, i: nat, wall: int, o: Options)
    requires CanStep(s, Advance(i, wall)) && !(s.insts[i].pc.HkWait? && s.lock.Some?)
    ensures Needs(Next(s, Advance(i, wall), o), i) < Needs(s, i)
    ensures Needs(s, i) == 0 <==> s.insts[i].pc.Idle?
  {
    CommandPops(s, i, o);
    hide ListsAfter, LockAfter, IsExpired, CacheKey, Wanted;
  }

  // What a housekeeping makes of the lists.

  /** The messages before the first line that cannot be decoded, and the lines after it. */
  function Front(lines: seq<Line>): seq<Message> {
    if lines == [] || lines[0].Corrupt? then [] else [lines[0].m] + Front(lines[1..])
  }

  function Beyond(lines: seq<Line>): seq<Line> {
    if lines == [] then [] else if lines[0].Corrupt? then lines[1..] else Beyond(lines[1..])
  }

  /** The main and the waiting list that the housekeeping under way comes to if nobody interferes. */
  function Outcome(s: System, i: nat, o: Options): (seq<Line>, seq<Line>)
    requires i in s.insts
  {
    var l, now := s.lists, s.insts[i].now;
    match s.insts[i].pc
    case HkDelete => (Entries(Survivors(l.taken + Front(l.recent), now, o.ttl)), Beyond(l.recent))
    case HkPopMain => (Entries(Survivors(l.taken + Front(l.recent), now, o.ttl)), Beyond(l.recent))
    case HkPopNew => (Entries(Survivors(l.taken + Front(l.recent), now, o.ttl)), Beyond(l.recent))
    case HkPushNew(_) => (Entries(Survivors(l.taken + Front(l.recent), now, o.ttl)), Beyond(l.recent))
    case HkCommit => (Entries(Survivors(l.taken, now, o.ttl)), l.recent)
    case _ => (l.main, l.recent)
  }

  /** In a housekeeping that found the main list empty. */
  predicate InMerge(pc: Pc) {
    pc.HkDelete? || Merging(pc) || pc.HkStamp? || pc.HkRelease?
  }

  /** What a step of the merge has to do. */
  ghost predicate Keeps(s: System, i: nat, wall: int, o: Options)
    requires CanStep(s, Advance(i, wall))
  {
    var t := Next(s, Advance(i, wall), o);
    && Outcome(t, i, o) == Outcome(s, i, o)
    && (if s.insts[i].pc.HkRelease? then t.insts[i].pc.Idle? && t.lock.None? else InMerge(t.insts[i].pc))
  }

  lemma PopKeeps(s: System, i: nat, wall: int, o: Options)
    requires i in s.insts && s.insts[i].pc.HkPopNew?
    ensures Keeps(s, i, wall, o)
  {
    hide Survivors, IsExpired, CacheKey, Wanted, Entries;
    var l := s.lists;
    if l.recent == [] || l.recent[0].Corrupt? {
      assert l.taken + [] == l.taken;
    } else {
      var m := l.recent[0].m;
      assert (l.taken + [m]) + Front(l.recent[1..]) == l.taken + ([m] + Front(l.recent[1..]));
    }
  }

  lemma CommitKeeps(s: System, i: nat, wall: int, o: Options)
    requires Inv(s, o) && i in s.insts && s.insts[i].pc.HkCommit?
    ensures Keeps(s, i, wall, o)
  {
    CommitMain(s, i, o);
    hide Inv, Survivors, Entries, Front, Beyond;
  }

  lemma OthersKeep(s: System, i: nat, wall: int, o: Options)
    requires i in s.insts && InMerge(s.insts[i].pc) && !s.insts[i].pc.HkPopNew? && !s.insts[i].pc.HkCommit?
    requires s.insts[i].pc.HkPopMain? || s.insts[i].pc.HkPushMain? ==> s.lists.main == [] && !s.insts[i].pc.HkPushMain?
    ensures Keeps(s, i, wall, o)
  {
    hide Survivors, IsExpired, CacheKey, Wanted, Entries, Front, Beyond;
  }

  lemma OutcomeKept(s: System, i: nat, wall: int, o: Options)
    requires Inv(s, o) && i in s.insts && InMerge(s.insts[i].pc)
    ensures CanStep(s, Advance(i, wall)) && Keeps(s, i, wall, o)
  {
    assert Holder(s) == s.insts[i];
    hide Keeps, Survivors, Everywhere, Conserved;
    if s.insts[i].pc.HkPopNew? {
      PopKeeps(s, i, wall, o);
    } else if s.insts[i].pc.HkCommit? {
      CommitKeeps(s, i, wall, o);
    } else {
      OthersKeep(s, i, wall, o);
    }
  }

  lemma CommitMain(s: System, i: nat, o: Options)
    requires Inv(s, o) && i in s.insts && s.insts[i].pc.HkCommit?
    ensures Committed(s.lists, s.insts[i].count).main == Entries(Survivors(s.lists.taken, s.insts[i].now, o.ttl))
  {
    assert Holder(s) == s.insts[i];
    var l := s.lists;
    hide Survivors, Everywhere;
    assert Readable(l.hk) + [] == Readable(l.hk);
    assert |l.hk| == 0 ==> l.hk == [] && Readable(l.hk) == [];
  }

  /** The housekeeping under way carried to its end by itself. */
  ghost function Alone(s: System, i: nat, wall: int, o: Options): System
    requires Inv(s, o) && i in s.insts && (InMerge(s.insts[i].pc) || s.insts[i].pc.Idle?)
    decreases Needs(s, i)
  {
    if s.insts[i].pc.Idle? then s
    else
      OutcomeKept(s, i, wall, o);
      InvStep(s, Advance(i, wall), o);
      EachCommandCounts(s, i, wall, o);
      Alone(Next(s, Advance(i, wall), o), i, wall, o)
  }

  lemma {:induction false} AloneComes(s: System, i: nat, wall: int, o: Options)
    requires Inv(s, o) && i in s.insts && (InMerge(s.insts[i].pc) || s.insts[i].pc.Idle?)
    requires s.insts[i].pc.Idle? ==> s.lock.None?
    ensures var t := Alone(s, i, wall, o);
            i in t.insts && t.insts[i].pc.Idle? && t.lock.None? && (t.lists.main, t.lists.recent) == Outcome(s, i, o)
    decreases Needs(s, i)
  {
    if !s.insts[i].pc.Idle? {
      OutcomeKept(s, i, wall, o);
      InvStep(s, Advance(i, wall), o);
      EachCommandCounts(s, i, wall, o);
      hide Outcome, Inv, InMerge, Needs, CanStep, Next;
      assert Alone(s, i, wall, o) == Alone(Next(s, Advance(i, wall), o), i, wall, o);
      AloneComes(Next(s, Advance(i, wall), o), i, wall, o);
    }
  }

  /** The first command of a merge. */
  lemma MergeBegins(s: System, i: nat, wall: int, o: Options)
    requires Inv(s, o) && i in s.insts && s.insts[i].pc.HkLen? && s.lists.main == []
    ensures var t := Next(s, Advance(i, wall), o);
            && i in t.insts && InMerge(t.insts[i].pc)
            && Outcome(t, i, o) == (Entries(Survivors(Front(s.lists.recent), wall, o.ttl)), Beyond(s.lists.recent))
  {
    assert Holder(s) == s.insts[i];
    LeavesLeft(s, i, wall, wall, o);
    hide Survivors, Everywhere, Conserved, Front, Beyond, Entries;
    var t := Next(s, Advance(i, wall), o);
    assert t.lists.taken == [] && [] + Front(s.lists.recent) == Front(s.lists.recent);
  }

  /** A housekeeping that finds the main list empty and is not interfered with frees the lock and leaves in
      the main list exactly what the filter keeps of the messages that waited, up to a line that cannot be
      decoded; that line is gone, and what came after it still waits. */
  lemma MergesWaiting(s: System, i: nat, wall: int, o: Options)
    requires Inv(s, o) && i in s.insts && s.insts[i].pc.HkLen? && s.lists.main == []
    ensures var t := Next(s, Advance(i, wall), o);
            && Inv(t, o) && i in t.insts && InMerge(t.insts[i].pc)
            && var u := Alone(t, i, wall, o);
            && i in u.insts && u.insts[i].pc.Idle? && u.lock.None?
            && u.lists.main == Entries(Survivors(Front(s.lists.recent), wall, o.ttl))
            && u.lists.recent == Beyond(s.lists.recent)
  {
    assert CanStep(s, Advance(i, wall)) by {
      assert Holder(s) == s.insts[i];
    }
    hide Survivors, Inv, Outcome, InMerge, Next, Front, Beyond, Entries;
    MergeBegins(s, i, wall, o);
    InvStep(s, Advance(i, wall), o);
    AloneComes(Next(s, Advance(i, wall), o), i, wall, o);
  }
}
