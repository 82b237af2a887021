/** Whole runs of the disk queue: refinement of the FIFO queue without crashes, and the safety
    of every message under crashes, restarts and decaying files. */
module DiskQueueRuns {
  import opened Sequences
  import opened RetryMessage
  import opened DiskFiles
  import opened DiskQueueState
  import Fifo = FifoQueue

  datatype Op =
    | PutOp(ms: seq<Message>, createdAt: int, writtenAt: int)
    | GetOp(want: nat)
    | HousekeepingOp(wall: int, mergedAt: int)

  function After(s: State, op: Op, ttl: Option<int>): State
    requires PositionOk(s)
  {
    match op
    case PutOp(ms, c, w) => AfterPut(s, ms, c, w)
    case GetOp(want) => AfterGet(s, want, ttl)
    case HousekeepingOp(wall, t) => AfterHousekeeping(s, wall, ttl, t)
  }

  lemma AfterConsistent(s: State, op: Op, ttl: Option<int>)
    requires Consistent(s)
    ensures Consistent(After(s, op, ttl))
  {
    match op
    case PutOp(ms, c, w) => PutConsistent(s, ms, c, w);
    case GetOp(want) => GetReads(s, want, ttl);
    case HousekeepingOp(wall, t) => HousekeepingRotates(s, wall, ttl, t);
  }

  // Refinement.

  function Waiting(s: State): seq<Message> {
    Readable(LinesAt(s.disk, NewFile))
  }

  function Abs(s: State): Fifo.Queue
    requires PositionOk(s)
  {
    Fifo.Queue(Unread(s), Waiting(s))
  }

  /** How many of the unread messages a get reads. */
  function Used(s: State, want: nat, ttl: Option<int>): nat
    requires PositionOk(s)
  {
    if s.mem.msgCount == 0 && s.mem.pos.None? then 0 else ScanFor(s, want, ttl).used
  }

  lemma GetUses(s: State, want: nat, ttl: Option<int>)
    requires Consistent(s)
    ensures var used := Used(s, want, ttl);
            && used <= |Unread(s)|
            && PositionOk(AfterGet(s, want, ttl))
            && Unread(AfterGet(s, want, ttl)) == Unread(s)[used..]
            && Got(s, want, ttl) == StripAcks(Unexpired(Unread(s)[..used], s.mem.now, ttl))
            && |Got(s, want, ttl)| <= want
            && (|Got(s, want, ttl)| < want ==> used == |Unread(s)|)
  {
    GetReads(s, want, ttl);
    if s.mem.msgCount == 0 && s.mem.pos.None? {
      assert Unread(s)[..0] == [] && Unread(s)[0..] == Unread(s);
    } else if s.disk.queue.Some? {
      ScanReads(s.disk.queue.value.lines, From(s), want, s.mem.now, ttl);
    }
  }

  function ActionOf(s: State, op: Op, ttl: Option<int>): Fifo.Action
    requires PositionOk(s)
  {
    match op
    case PutOp(ms, _, _) => Fifo.Put(ms)
    case GetOp(want) => Fifo.Take(Used(s, want, ttl))
    case HousekeepingOp(wall, _) => if Busy(s) then Fifo.Stutter else Fifo.Rotate(|Waiting(s)|, wall)
  }

  /** Every operation of the disk queue, in every consistent state, is an action of the FIFO
      queue: put adds to the waiting messages, get takes from the front of the ready ones, and
      housekeeping rotates everything that waits, or does nothing. */
  lemma RefinesFifo(s: State, op: Op, ttl: Option<int>)
    requires Consistent(s)
    ensures Consistent(After(s, op, ttl))
    ensures Fifo.Enabled(Abs(s), ActionOf(s, op, ttl))
    ensures Abs(After(s, op, ttl)) == Fifo.Apply(Abs(s), ActionOf(s, op, ttl), ttl)
  {
    AfterConsistent(s, op, ttl);
    match op
    case PutOp(ms, c, w) =>
      PutConsistent(s, ms, c, w);
    case GetOp(want) =>
      GetUses(s, want, ttl);
      GetReads(s, want, ttl);
    case HousekeepingOp(wall, t) =>
      HousekeepingRotates(s, wall, ttl, t);
      assert Waiting(s)[..|Waiting(s)|] == Waiting(s);
  }

  /** The generation being read was filtered at the time still used for expiry, and the count
      is exactly the number of messages left in it. */
  ghost predicate Exact(s: State, ttl: Option<int>) {
    && Consistent(s)
    && s.mem.msgCount == |Unread(s)|
    && forall m | m in Unread(s) :: !IsExpired(m, s.mem.now, ttl)
  }

  lemma {:induction false} NoneExpired(ms: seq<Message>, now: int, ttl: Option<int>)
    requires forall m | m in ms :: !IsExpired(m, now, ttl)
    ensures Unexpired(ms, now, ttl) == ms
  {
    if ms != [] {
      NoneExpired(ms[1..], now, ttl);
    }
  }

  /** In such a state a get of `want` hands out exactly the next `want` messages, or all that
      are left, whichever is less. */
  lemma ExactGet(s: State, want: nat, ttl: Option<int>)
    requires Exact(s, ttl)
    ensures Exact(AfterGet(s, want, ttl), ttl)
    ensures var used := Used(s, want, ttl);
            && used == (if want < s.mem.msgCount then want else s.mem.msgCount)
            && Got(s, want, ttl) == StripAcks(Unread(s)[..used])
  {
    hide Scan, Readable, Unexpired;
    GetReads(s, want, ttl);
    GetUses(s, want, ttl);
    ExactCount(s, want, ttl);
    hide AfterGet, Got, Used, Unread;
    var s' := AfterGet(s, want, ttl);
    var used := Used(s, want, ttl);
    assert forall m | m in Unread(s)[..used] :: m in Unread(s);
    assert forall m | m in Unread(s)[used..] :: m in Unread(s);
    NoneExpired(Unread(s)[..used], s.mem.now, ttl);
    assert |StripAcks(Unread(s)[..used])| == used;
  }

  lemma ExactCount(s: State, want: nat, ttl: Option<int>)
    requires Consistent(s) && s.mem.msgCount == |Unread(s)|
    ensures var t := AfterGet(s, want, ttl);
            PositionOk(t) && t.mem.now == s.mem.now && t.mem.msgCount == |Unread(t)|
  {
    GetUses(s, want, ttl);
    hide Scan, Readable, Unexpired, Got;
  }

  lemma ExactStep(s: State, op: Op, ttl: Option<int>)
    requires Exact(s, ttl)
    ensures Exact(After(s, op, ttl), ttl)
  {
    match op
    case PutOp(ms, c, w) =>
      PutConsistent(s, ms, c, w);
    case GetOp(want) =>
      ExactGet(s, want, ttl);
    case HousekeepingOp(wall, t) =>
      HousekeepingRotates(s, wall, ttl, t);
      if !Busy(s) {
        SurvivorsUnexpired(Waiting(s), wall, ttl);
      }
  }

  /** The states, histories and outputs of a run without crashes. */
  ghost function RunOps(s: State, h: Fifo.History, got: seq<Message>, ops: seq<Op>, ttl: Option<int>)
    : (State, Fifo.History, seq<Message>)
    requires Exact(s, ttl)
    decreases |ops|
  {
    if ops == [] then (s, h, got)
    else
      ExactStep(s, ops[0], ttl);
      RefinesFifo(s, ops[0], ttl);
      RunOps(After(s, ops[0], ttl),
             Fifo.Record(h, Abs(s), ActionOf(s, ops[0], ttl)),
             got + Output(s, ops[0], ttl),
             ops[1..], ttl)
  }

  function Output(s: State, op: Op, ttl: Option<int>): seq<Message>
    requires PositionOk(s)
  {
    if op.GetOp? then Got(s, op.want, ttl) else []
  }

  lemma StripConcat(a: seq<Message>, b: seq<Message>)
    ensures StripAcks(a) + StripAcks(b) == StripAcks(a + b)
  {
  }

  lemma OutputIsTaken(s: State, h: Fifo.History, op: Op, ttl: Option<int>)
    requires Exact(s, ttl) && Fifo.Enabled(Abs(s), ActionOf(s, op, ttl))
    ensures StripAcks(h.taken) + Output(s, op, ttl)
         == StripAcks(Fifo.Record(h, Abs(s), ActionOf(s, op, ttl)).taken)
  {
    hide Got, AfterGet, Unread, Used, Waiting, Readable, IsExpired;
    if op.GetOp? {
      ExactGet(s, op.want, ttl);
      hide Exact;
      StripConcat(h.taken, Unread(s)[..Used(s, op.want, ttl)]);
    } else {
      assert StripAcks(h.taken) + [] == StripAcks(h.taken);
    }
  }

  lemma ExplainedOp(s: State, h: Fifo.History, op: Op, ttl: Option<int>)
    requires Exact(s, ttl) && Fifo.Explained(Abs(s), h, ttl)
    ensures Exact(After(s, op, ttl), ttl) && Fifo.Enabled(Abs(s), ActionOf(s, op, ttl))
    ensures var h' := Fifo.Record(h, Abs(s), ActionOf(s, op, ttl));
            && Fifo.Explained(Abs(After(s, op, ttl)), h', ttl)
            && StripAcks(h.taken) + Output(s, op, ttl) == StripAcks(h'.taken)
  {
    ExactStep(s, op, ttl);
    RefinesFifo(s, op, ttl);
    OutputIsTaken(s, h, op, ttl);
    hide Fifo.Explained, After, ActionOf, Output, StripAcks, Fifo.Record, Fifo.Apply, Abs;
    Fifo.ExplainedStep(Abs(s), h, ActionOf(s, op, ttl), ttl);
  }

  lemma {:induction false} RunOpsExplained(s: State, h: Fifo.History, got: seq<Message>, ops: seq<Op>, ttl: Option<int>)
    requires Exact(s, ttl) && Fifo.Explained(Abs(s), h, ttl) && got == StripAcks(h.taken)
    ensures var (s', h', got') := RunOps(s, h, got, ops, ttl);
            && Exact(s', ttl) && Fifo.Explained(Abs(s'), h', ttl) && got' == StripAcks(h'.taken)
    decreases |ops|
  {
    if ops != [] {
      var op := ops[0];
      ExplainedOp(s, h, op, ttl);
      hide Fifo.Explained, StripAcks, After, ActionOf, Output, Fifo.Record;
      RunOpsExplained(After(s, op, ttl), Fifo.Record(h, Abs(s), ActionOf(s, op, ttl)),
                      got + Output(s, op, ttl), ops[1..], ttl);
    }
  }

  const NO_FILES := Disk(None, None, None)

  /** Over every run without crashes from an empty directory, the messages handed out by all
      gets are, in order, exactly the unexpired first occurrences of each generation, short of
      those still unread; hence a subsequence of what was put; and the count says exactly how
      many are left. */
  lemma DeliversGenerations(ops: seq<Op>, wall: int, ttl: Option<int>)
    ensures Exact(Recover(NO_FILES, wall), ttl)
    ensures var (s, h, got) := RunOps(Recover(NO_FILES, wall), Fifo.NO_HISTORY, [], ops, ttl);
            && Exact(s, ttl)
            && IsSubseq(h.taken, h.puts) && got == StripAcks(h.taken)
            && Fifo.Kept(h.gens, ttl) == h.taken + Unread(s)
            && h.puts == Fifo.Members(h.gens) + Waiting(s)
  {
    var (s, h, got) := RunOps(Recover(NO_FILES, wall), Fifo.NO_HISTORY, [], ops, ttl);
    assert StripAcks([]) == [];
    RunOpsExplained(Recover(NO_FILES, wall), Fifo.NO_HISTORY, [], ops, ttl);
    Fifo.KeptInOrder(h.gens, ttl);
    SubseqExtend(Fifo.Kept(h.gens, ttl), Fifo.Members(h.gens), Waiting(s));
    SubseqPrefix(h.taken, Unread(s), h.puts);
  }

  // Crashes.

  /** A running process, or the files it left; `last` is the latest file time given out. */
  datatype System =
    | Up(s: State, last: int)
    | Down(d: Disk, last: int)

  /** What has become of the messages: handed out by a get that returned, dropped as duplicate or
      expired, gone with a line that decayed, or read by a get that crashed after removing the file
      and before returning. */
  datatype Fate = Fate(
    put: set<Message>,
    handed: set<Message>,
    dropped: set<Message>,
    decayed: set<Message>,
    lost: set<Message>)

  const UNTOUCHED := Fate({}, {}, {}, {}, {})

  datatype Step =
    | Do(op: Op)
    | Decay(p: Path, line: nat, brace: bool)
    | CrashIn(op: Op, d: Disk)
    | CrashIdle
    | Restart(wall: int)

  ghost predicate TimesOk(op: Op, last: int) {
    match op
    case PutOp(_, c, w) => last <= c <= w
    case GetOp(_) => true
    case HousekeepingOp(_, t) => last <= t
  }

  function LastTime(op: Op, last: int): int {
    match op
    case PutOp(_, _, w) => w
    case GetOp(_) => last
    case HousekeepingOp(_, t) => t
  }

  ghost predicate Moment(s: State, op: Op, ttl: Option<int>, d: Disk)
    requires PositionOk(s)
  {
    match op
    case PutOp(ms, c, w) => PutMoment(s, ms, c, w, d)
    case GetOp(want) => GetMoment(s, want, ttl, d)
    case HousekeepingOp(wall, t) => HousekeepingMoment(s, wall, ttl, t, d)
  }

  function DiskOf(sys: System): Disk {
    if sys.Up? then sys.s.disk else sys.d
  }

  function Decayed(d: Disk, p: Path, line: nat, brace: bool): Disk
    requires p != HkFile && line < |LinesAt(d, p)|
  {
    With(d, p, Some(At(d, p).value.(lines := LinesAt(d, p)[line := Corrupt(brace)])))
  }

  ghost predicate CanStep(sys: System, step: Step, ttl: Option<int>) {
    match step
    case Do(op) => sys.Up? && PositionOk(sys.s) && TimesOk(op, sys.last)
    case Decay(p, line, _) => p != HkFile && line < |LinesAt(DiskOf(sys), p)|
    case CrashIn(op, d) => sys.Up? && PositionOk(sys.s) && TimesOk(op, sys.last) && Moment(sys.s, op, ttl, d)
    case CrashIdle => sys.Up?
    case Restart(_) => sys.Down?
  }

  ghost function Next(sys: System, step: Step, ttl: Option<int>): System
    requires CanStep(sys, step, ttl)
  {
    match step
    case Do(op) => Up(After(sys.s, op, ttl), LastTime(op, sys.last))
    case Decay(p, line, brace) =>
      var d := Decayed(DiskOf(sys), p, line, brace);
      if sys.Up? then sys.(s := sys.s.(disk := d)) else sys.(d := d)
    case CrashIn(op, d) => Down(d, LastTime(op, sys.last))
    case CrashIdle => Down(sys.s.disk, sys.last)
    case Restart(wall) => Up(Recover(sys.d, wall), sys.last)
  }

  ghost function SetOf(ms: seq<Message>): set<Message> {
    set m | m in ms
  }

  /** Messages read by a get are handed out, or dropped if they have expired. */
  ghost function ReadBy(f: Fate, ms: seq<Message>, now: int, ttl: Option<int>): Fate {
    f.(handed := f.handed + (set m | m in ms && !IsExpired(m, now, ttl)),
       dropped := f.dropped + (set m | m in ms && IsExpired(m, now, ttl)))
  }

  /** What a get that removed the file read, and would have returned. */
  ghost function LostBy(f: Fate, ms: seq<Message>, now: int, ttl: Option<int>): Fate {
    f.(lost := f.lost + (set m | m in ms && !IsExpired(m, now, ttl)),
       dropped := f.dropped + (set m | m in ms && IsExpired(m, now, ttl)))
  }

  /** What an operation does to the messages when it crashes at the disk `d`. */
  ghost function FateAfter(f: Fate, s: State, op: Op, ttl: Option<int>, d: Disk): Fate
    requires PositionOk(s)
  {
    match op
    case PutOp(ms, c, w) =>
      if d == AfterPut(s, ms, c, w).disk then f.(put := f.put + SetOf(ms)) else f
    case GetOp(want) =>
      if d == s.disk then f else LostBy(f, Unread(s), s.mem.now, ttl)
    case HousekeepingOp(wall, t) =>
      if d.queue == s.disk.queue && d.recent == s.disk.recent then f
      else f.(dropped := f.dropped + (SetOf(ToMerge(s.disk)) - SetOf(Merged(s.disk, wall, ttl))))
  }

  ghost function FateDone(f: Fate, s: State, op: Op, ttl: Option<int>): Fate
    requires PositionOk(s)
  {
    match op
    case GetOp(want) =>
      ReadBy(f, Unread(s)[..MinNat(Used(s, want, ttl), |Unread(s)|)], s.mem.now, ttl)
    case _ => FateAfter(f, s, op, ttl, After(s, op, ttl).disk)
  }

  function MinNat(a: nat, b: nat): nat {
    if a < b then a else b
  }

  ghost function NextFate(f: Fate, sys: System, step: Step, ttl: Option<int>): Fate
    requires CanStep(sys, step, ttl)
  {
    match step
    case Do(op) => FateDone(f, sys.s, op, ttl)
    case Decay(p, line, _) => f.(decayed := f.decayed + SetOf(Decoded(LinesAt(DiskOf(sys), p)[line])))
    case CrashIn(op, d) => FateAfter(f, sys.s, op, ttl, d)
    case CrashIdle => f
    case Restart(_) => f
  }

  ghost predicate Gone(f: Fate, m: Message) {
    m in f.handed || m in f.dropped || m in f.decayed || m in f.lost
  }

  /** Every message put is gone or among `ms`. */
  ghost predicate Covered(f: Fate, ms: seq<Message>) {
    forall m | m in f.put :: Gone(f, m) || m in ms
  }

  /** From `f` to `f'` nothing put is forgotten, and nothing among `ms` disappears on the way to
      `ms'` without being gone. */
  ghost predicate Carried(f: Fate, ms: seq<Message>, f': Fate, ms': seq<Message>) {
    && f.handed <= f'.handed && f.dropped <= f'.dropped && f.decayed <= f'.decayed && f.lost <= f'.lost
    && (forall m | m in ms :: Gone(f', m) || m in ms')
    && (forall m | m in f'.put :: m in f.put || m in ms')
  }

  lemma CoveredCarried(f: Fate, ms: seq<Message>, f': Fate, ms': seq<Message>)
    requires Covered(f, ms) && Carried(f, ms, f', ms')
    ensures Covered(f', ms')
  {
  }

  function AllReadable(d: Disk): seq<Message> {
    Readable(LinesAt(d, QueueFile)) + Readable(LinesAt(d, NewFile))
  }

  /** A `.new` that start-up will throw away. */
  ghost predicate Stale(d: Disk) {
    d.queue.Some? && d.recent.Some? && d.queue.value.mtime > d.recent.value.mtime
  }

  ghost predicate FilesBefore(d: Disk, last: int) {
    && (d.queue.Some? ==> d.queue.value.mtime <= last)
    && (d.recent.Some? ==> d.recent.value.mtime <= last)
  }

  /** What a running process, or the next one, will still read. */
  ghost function ToBeRead(sys: System): seq<Message>
    requires sys.Up? ==> PositionOk(sys.s)
  {
    match sys
    case Up(s, _) => Unread(s) + Waiting(s)
    case Down(d, _) => if Stale(d) then Readable(LinesAt(d, QueueFile)) else AllReadable(d)
  }

  ghost predicate Sound(sys: System) {
    && FilesBefore(DiskOf(sys), sys.last)
    && (sys.Up? ==> Consistent(sys.s) && !Stale(sys.s.disk))
  }

  /** No message is lost: one that was put and is not gone will still be read. */
  ghost predicate Safe(sys: System, f: Fate) {
    Sound(sys) && Covered(f, ToBeRead(sys))
  }

  lemma UnreadOnDisk(s: State)
    requires PositionOk(s)
    ensures forall m | m in Unread(s) :: m in Readable(LinesAt(s.disk, QueueFile))
  {
    if s.disk.queue.Some? {
      var lines := s.disk.queue.value.lines;
      assert lines == lines[..From(s)] + lines[From(s)..];
      ReadableConcat(lines[..From(s)], lines[From(s)..]);
    }
  }

  // Completed operations.

  lemma PutCarries(s: State, f: Fate, op: Op, ttl: Option<int>, last: int)
    requires Sound(Up(s, last)) && op.PutOp? && TimesOk(op, last)
    ensures var s' := After(s, op, ttl);
            && Sound(Up(s', op.writtenAt))
            && Unread(s') == Unread(s) && Waiting(s') == Waiting(s) + op.ms
            && Carried(f, Unread(s) + Waiting(s), FateDone(f, s, op, ttl), Unread(s') + Waiting(s'))
  {
    PutConsistent(s, op.ms, op.createdAt, op.writtenAt);
    hide Readable;
  }

  lemma GetCarries(s: State, f: Fate, op: Op, ttl: Option<int>, last: int)
    requires Sound(Up(s, last)) && op.GetOp?
    ensures var s' := After(s, op, ttl);
            && Sound(Up(s', last))
            && Carried(f, Unread(s) + Waiting(s), FateDone(f, s, op, ttl), Unread(s') + Waiting(s'))
  {
    GetReads(s, op.want, ttl);
    GetUses(s, op.want, ttl);
    var used := Used(s, op.want, ttl);
    hide Readable, Scan, StripAcks, Unexpired, AfterGet, Got, Used;
    HandedOrDropped(f, Unread(s), used, s.mem.now, ttl, Waiting(s));
  }

  lemma HandedOrDropped(f: Fate, ms: seq<Message>, used: nat, now: int, ttl: Option<int>, rest: seq<Message>)
    requires used <= |ms|
    ensures Carried(f, ms + rest, ReadBy(f, ms[..used], now, ttl), ms[used..] + rest)
  {
    assert ms == ms[..used] + ms[used..];
  }

  lemma KeptOrDropped(f: Fate, ms: seq<Message>, keep: seq<Message>)
    ensures Carried(f, ms, f.(dropped := f.dropped + (SetOf(ms) - SetOf(keep))), keep)
  {
  }

  /** Once a housekeeping has changed a file, all it read is in the new generation or dropped. */
  lemma MergedOrDropped(s: State, f: Fate, op: Op, ttl: Option<int>, d: Disk)
    requires Consistent(s) && op.HousekeepingOp? && !Busy(s)
    ensures Unread(s) == [] && Readable(LinesAt(s.disk, QueueFile)) == []
    ensures d.queue != s.disk.queue || d.recent != s.disk.recent ==>
              Carried(f, Unread(s) + Waiting(s), FateAfter(f, s, op, ttl, d), Merged(s.disk, op.wall, ttl))
    ensures var s' := After(s, op, ttl);
            PositionOk(s') && Unread(s') == Merged(s.disk, op.wall, ttl) && Waiting(s') == []
  {
    HousekeepingRotates(s, op.wall, ttl, op.mergedAt);
    hide Survivors;
    assert ToMerge(s.disk) == Waiting(s) == Unread(s) + Waiting(s);
    KeptOrDropped(f, ToMerge(s.disk), Merged(s.disk, op.wall, ttl));
    hide Carried, SetOf, Readable;
  }

  lemma HousekeepingSound(s: State, op: Op, ttl: Option<int>, last: int)
    requires Sound(Up(s, last)) && op.HousekeepingOp? && TimesOk(op, last)
    ensures Sound(Up(After(s, op, ttl), op.mergedAt))
  {
    AfterConsistent(s, op, ttl);
    hide Readable, Survivors, Consistent;
  }

  lemma HousekeepingCarries(s: State, f: Fate, op: Op, ttl: Option<int>, last: int)
    requires Sound(Up(s, last)) && op.HousekeepingOp? && TimesOk(op, last)
    ensures var s' := After(s, op, ttl);
            && Sound(Up(s', op.mergedAt))
            && Carried(f, Unread(s) + Waiting(s), FateDone(f, s, op, ttl), Unread(s') + Waiting(s'))
  {
    HousekeepingSound(s, op, ttl, last);
    if !Busy(s) {
      var d := After(s, op, ttl).disk;
      MergedOrDropped(s, f, op, ttl, d);
      hide Survivors, SetOf, Consistent, Merged;
      if d.queue == s.disk.queue && d.recent == s.disk.recent {
        assert Waiting(s) == [];
      } else {
        hide Carried;
        var keep := Merged(s.disk, op.wall, ttl);
        assert keep + [] == keep;
      }
    }
  }

  // Interrupted operations.

  lemma CrashInPutCarries(s: State, f: Fate, op: Op, ttl: Option<int>, last: int, d: Disk)
    requires Sound(Up(s, last)) && op.PutOp? && TimesOk(op, last) && Moment(s, op, ttl, d)
    ensures var sys' := Down(d, op.writtenAt);
            Sound(sys') && Carried(f, Unread(s) + Waiting(s), FateAfter(f, s, op, ttl, d), ToBeRead(sys'))
  {
    UnreadOnDisk(s);
    PutConsistent(s, op.ms, op.createdAt, op.writtenAt);
    assert Readable([]) == [];
    hide Readable;
    if d != AfterPut(s, op.ms, op.createdAt, op.writtenAt).disk {
      assert Readable(LinesAt(d, NewFile)) == Waiting(s);
    }
  }

  lemma CrashInGetCarries(s: State, f: Fate, op: Op, ttl: Option<int>, last: int, d: Disk)
    requires Sound(Up(s, last)) && op.GetOp? && Moment(s, op, ttl, d)
    ensures var sys' := Down(d, last);
            Sound(sys') && Carried(f, Unread(s) + Waiting(s), FateAfter(f, s, op, ttl, d), ToBeRead(sys'))
  {
    UnreadOnDisk(s);
    GetReads(s, op.want, ttl);
    hide Readable, Scan, StripAcks, Unexpired;
  }

  lemma CrashInHousekeepingSound(s: State, op: Op, ttl: Option<int>, last: int, d: Disk)
    requires Sound(Up(s, last)) && op.HousekeepingOp? && TimesOk(op, last) && Moment(s, op, ttl, d)
    ensures Sound(Down(d, op.mergedAt))
    ensures d.queue != s.disk.queue || d.recent != s.disk.recent ==>
              && !Busy(s)
              && forall m | m in Merged(s.disk, op.wall, ttl) :: m in Readable(LinesAt(d, QueueFile))
  {
    ReadableEntries(Merged(s.disk, op.wall, ttl));
    hide Readable, Survivors, Merged, Consistent;
  }

  lemma CrashInHousekeepingCarries(s: State, f: Fate, op: Op, ttl: Option<int>, last: int, d: Disk)
    requires Sound(Up(s, last)) && op.HousekeepingOp? && TimesOk(op, last) && Moment(s, op, ttl, d)
    ensures var sys' := Down(d, op.mergedAt);
            Sound(sys') && Carried(f, Unread(s) + Waiting(s), FateAfter(f, s, op, ttl, d), ToBeRead(sys'))
  {
    UnreadOnDisk(s);
    CrashInHousekeepingSound(s, op, ttl, last, d);
    if d.queue != s.disk.queue || d.recent != s.disk.recent {
      MergedOrDropped(s, f, op, ttl, d);
      hide Readable, Survivors, SetOf, Merged, Consistent, Moment, After, FateAfter, Unread, Waiting;
    }
  }

  // Decay and restart.

  lemma DecayedLine(lines: seq<Line>, i: nat, brace: bool)
    requires i < |lines|
    ensures var lines' := lines[i := Corrupt(brace)];
            && (forall m | m in Readable(lines) :: m in Readable(lines') || m in Decoded(lines[i]))
            && |Readable(lines')| <= |Readable(lines)|
  {
    var lines' := lines[i := Corrupt(brace)];
    var a, b := lines[..i], lines[i + 1..];
    assert lines == a + ([lines[i]] + b) && lines' == a + ([Corrupt(brace)] + b);
    ReadableConcat(a, [lines[i]] + b);
    ReadableConcat([lines[i]], b);
    ReadableConcat(a, [Corrupt(brace)] + b);
    ReadableConcat([Corrupt(brace)], b);
    assert Readable([lines[i]]) == Decoded(lines[i]);
    assert Readable([Corrupt(brace)]) == [];
  }

  lemma DecayUnread(s: State, i: nat, brace: bool)
    requires PositionOk(s) && i < |LinesAt(s.disk, QueueFile)|
    ensures var s' := s.(disk := Decayed(s.disk, QueueFile, i, brace));
            && PositionOk(s') && |Unread(s')| <= |Unread(s)|
            && forall m | m in Unread(s) :: m in Unread(s') || m in Decoded(LinesAt(s.disk, QueueFile)[i])
  {
    hide Readable;
    var lines, from := LinesAt(s.disk, QueueFile), From(s);
    if i >= from {
      DecayedLine(lines[from..], i - from, brace);
      assert lines[i := Corrupt(brace)][from..] == lines[from..][i - from := Corrupt(brace)];
    } else {
      assert lines[i := Corrupt(brace)][from..] == lines[from..];
    }
  }

  lemma DecaySound(sys: System, step: Step, ttl: Option<int>)
    requires Sound(sys) && step.Decay? && CanStep(sys, step, ttl)
    ensures Sound(Next(sys, step, ttl))
  {
    if sys.Up? && step.p == QueueFile {
      DecayUnread(sys.s, step.line, step.brace);
    }
    hide Readable;
  }

  lemma DecayCarries(sys: System, f: Fate, step: Step, ttl: Option<int>)
    requires Sound(sys) && step.Decay? && CanStep(sys, step, ttl)
    ensures var sys' := Next(sys, step, ttl);
            Sound(sys') && Carried(f, ToBeRead(sys), NextFate(f, sys, step, ttl), ToBeRead(sys'))
  {
    DecaySound(sys, step, ttl);
    if sys.Up? && step.p == QueueFile {
      DecayUnread(sys.s, step.line, step.brace);
      hide Readable, Unread, Consistent;
    } else {
      DecayedLine(LinesAt(DiskOf(sys), step.p), step.line, step.brace);
      hide Readable, Consistent;
    }
  }

  lemma RestartCarries(d: Disk, last: int, f: Fate, wall: int)
    requires Sound(Down(d, last))
    ensures var s := Recover(d, wall);
            Sound(Up(s, last)) && Carried(f, ToBeRead(Down(d, last)), f, Unread(s) + Waiting(s))
  {
    RecoverConsistent(d, wall);
    if d.queue.Some? {
      assert d.queue.value.lines[0..] == d.queue.value.lines;
    }
  }

  lemma DoCarries(sys: System, f: Fate, op: Op, ttl: Option<int>)
    requires Sound(sys) && CanStep(sys, Do(op), ttl)
    ensures var sys' := Next(sys, Do(op), ttl);
            Sound(sys') && Carried(f, ToBeRead(sys), NextFate(f, sys, Do(op), ttl), ToBeRead(sys'))
  {
    hide After, FateDone, Carried, Unread, Waiting, Sound;
    match op
    case PutOp(_, _, _) => PutCarries(sys.s, f, op, ttl, sys.last);
    case GetOp(_) => GetCarries(sys.s, f, op, ttl, sys.last);
    case HousekeepingOp(_, _) => HousekeepingCarries(sys.s, f, op, ttl, sys.last);
  }

  lemma CrashCarries(sys: System, f: Fate, op: Op, d: Disk, ttl: Option<int>)
    requires Sound(sys) && CanStep(sys, CrashIn(op, d), ttl)
    ensures var sys' := Next(sys, CrashIn(op, d), ttl);
            Sound(sys') && Carried(f, ToBeRead(sys), NextFate(f, sys, CrashIn(op, d), ttl), ToBeRead(sys'))
  {
    hide After, FateAfter, Carried, Unread, Waiting, Sound, Moment, AllReadable, Stale;
    match op
    case PutOp(_, _, _) => CrashInPutCarries(sys.s, f, op, ttl, sys.last, d);
    case GetOp(_) => CrashInGetCarries(sys.s, f, op, ttl, sys.last, d);
    case HousekeepingOp(_, _) => CrashInHousekeepingCarries(sys.s, f, op, ttl, sys.last, d);
  }

  /** Every step keeps every message safe, whatever crashes. */
  lemma SafeStep(sys: System, f: Fate, step: Step, ttl: Option<int>)
    requires Safe(sys, f) && CanStep(sys, step, ttl)
    ensures Safe(Next(sys, step, ttl), NextFate(f, sys, step, ttl))
  {
    match step {
      case Do(op) => DoCarries(sys, f, op, ttl);
      case Decay(_, _, _) => DecayCarries(sys, f, step, ttl);
      case CrashIn(op, d) => CrashCarries(sys, f, op, d, ttl);
      case CrashIdle => UnreadOnDisk(sys.s);
      case Restart(wall) => RestartCarries(sys.d, sys.last, f, wall);
    }
    hide Readable, Survivors, Scan;
    CoveredCarried(f, ToBeRead(sys), NextFate(f, sys, step, ttl), ToBeRead(Next(sys, step, ttl)));
  }

  ghost predicate CanRun(sys: System, steps: seq<Step>, ttl: Option<int>)
    decreases |steps|
  {
    steps == [] || (CanStep(sys, steps[0], ttl) && CanRun(Next(sys, steps[0], ttl), steps[1..], ttl))
  }

  ghost function Run(sys: System, f: Fate, steps: seq<Step>, ttl: Option<int>): (System, Fate)
    requires CanRun(sys, steps, ttl)
    decreases |steps|
  {
    if steps == [] then (sys, f)
    else Run(Next(sys, steps[0], ttl), NextFate(f, sys, steps[0], ttl), steps[1..], ttl)
  }

  lemma {:induction false} SafeRun(sys: System, f: Fate, steps: seq<Step>, ttl: Option<int>)
    requires Safe(sys, f) && CanRun(sys, steps, ttl)
    ensures var (sys', f') := Run(sys, f, steps, ttl); Safe(sys', f')
    decreases |steps|
  {
    if steps != [] {
      SafeStep(sys, f, steps[0], ttl);
      SafeRun(Next(sys, steps[0], ttl), NextFate(f, sys, steps[0], ttl), steps[1..], ttl);
    }
  }

  /** Over every run from an empty directory, with crashes at any moment of any operation,
      restarts and decaying lines, and file times that never go back: each message put was
      handed out, dropped as duplicate or expired, gone with a decayed line, lost by a get that
      crashed on its way back, or is on disk; and the count of a running process covers what it can
      still read. */
  lemma NothingLost(steps: seq<Step>, start: int, ttl: Option<int>)
    requires CanRun(Down(NO_FILES, start), steps, ttl)
    ensures var (sys, f) := Run(Down(NO_FILES, start), UNTOUCHED, steps, ttl);
            Covered(f, AllReadable(DiskOf(sys))) && (sys.Up? ==> Consistent(sys.s))
  {
    SafeRun(Down(NO_FILES, start), UNTOUCHED, steps, ttl);
    var (sys, f) := Run(Down(NO_FILES, start), UNTOUCHED, steps, ttl);
    if sys.Up? {
      UnreadOnDisk(sys.s);
    }
  }

  // What a crash in a get loses.

  /** A get of `want` removes the queue file: it reads to the end, or counts down to nothing. */
  predicate Removes(s: State, want: nat, ttl: Option<int>)
    requires PositionOk(s)
  {
    && s.disk.queue.Some? && !(s.mem.msgCount == 0 && s.mem.pos.None?)
    && (ScanFor(s, want, ttl).eof || s.mem.msgCount == ScanFor(s, want, ttl).used)
  }

  ghost predicate AnyUnexpired(s: State, ttl: Option<int>)
    requires PositionOk(s)
  {
    exists m :: m in Unread(s) && !IsExpired(m, s.mem.now, ttl)
  }

  /** A crash in a get can lose messages if and only if the get removes the file and a message still
      unread is unexpired; and then it loses all of those. */
  lemma CrashLosesIff(s: State, want: nat, ttl: Option<int>)
    requires Consistent(s)
    ensures (exists d :: GetMoment(s, want, ttl, d) && FateAfter(UNTOUCHED, s, GetOp(want), ttl, d).lost != {})
       <==> Removes(s, want, ttl) && AnyUnexpired(s, ttl)
    ensures forall d | GetMoment(s, want, ttl, d) && d != s.disk ::
              && Removes(s, want, ttl) && d.queue == None
              && FateAfter(UNTOUCHED, s, GetOp(want), ttl, d).lost
              == set m | m in Unread(s) && !IsExpired(m, s.mem.now, ttl)
  {
    var d := AfterGet(s, want, ttl).disk;
    assert GetMoment(s, want, ttl, d);
    hide Scan, Readable;
    if Removes(s, want, ttl) && AnyUnexpired(s, ttl) {
      assert d != s.disk;
      var m :| m in Unread(s) && !IsExpired(m, s.mem.now, ttl);
      assert m in FateAfter(UNTOUCHED, s, GetOp(want), ttl, d).lost;
    }
  }

  /** After a housekeeping on intact files: exactly the get that asks for all that is left, or more,
      can lose it. */
  lemma LastGetLoses(s: State, want: nat, ttl: Option<int>)
    requires Consistent(s) && Exact(s, ttl)
    ensures (exists d :: GetMoment(s, want, ttl, d) && FateAfter(UNTOUCHED, s, GetOp(want), ttl, d).lost != {})
       <==> 0 < |Unread(s)| <= want
  {
    CrashLosesIff(s, want, ttl);
    ExactGet(s, want, ttl);
    GetReads(s, want, ttl);
    GetUses(s, want, ttl);
    hide Scan, Readable;
    if Unread(s) != [] {
      assert Unread(s)[0] in Unread(s);
      assert AnyUnexpired(s, ttl);
    }
  }

  /** One message on disk, a get of one, and a crash between the removal of the file and the return:
      the message was handed to nobody and can be read by nobody. */
  lemma BatchLost(m: Message, last: int)
    ensures var s := State(Disk(Some(File([Entry(m)], last)), None, None), Memory(1, 0, None, false, 0));
            var step := CrashIn(GetOp(1), NO_FILES);
            var f := UNTOUCHED.(put := {m});
            && Safe(Up(s, last), f) && CanStep(Up(s, last), step, None)
            && AllReadable(DiskOf(Next(Up(s, last), step, None))) == []
            && NextFate(f, Up(s, last), step, None) == f.(lost := {m})
  {
    var s := State(Disk(Some(File([Entry(m)], last)), None, None), Memory(1, 0, None, false, 0));
    assert [Entry(m)][0..] == [Entry(m)] && [Entry(m)][1..] == [];
    assert Readable([Entry(m)]) == [m];
    assert Unread(s) == [m];
    assert NextMsg([Entry(m)], 0) == Some((m, 1));
    assert Scan([Entry(m)], 0, 1, 0, None).used == 1;
    assert AfterGet(s, 1, None).disk == NO_FILES;
  }

  /** A step that loses something: a crash in a get that had removed the file. */
  ghost predicate Loses(sys: System, step: Step, ttl: Option<int>)
    requires CanStep(sys, step, ttl)
  {
    && step.CrashIn? && step.op.GetOp? && step.d != sys.s.disk
    && Removes(sys.s, step.op.want, ttl) && AnyUnexpired(sys.s, ttl)
  }

  ghost predicate NeverLoses(sys: System, steps: seq<Step>, ttl: Option<int>)
    requires CanRun(sys, steps, ttl)
    decreases |steps|
  {
    steps == [] || (!Loses(sys, steps[0], ttl) && NeverLoses(Next(sys, steps[0], ttl), steps[1..], ttl))
  }

  lemma LosesStep(sys: System, f: Fate, step: Step, ttl: Option<int>)
    requires Safe(sys, f) && CanStep(sys, step, ttl)
    ensures f.lost <= NextFate(f, sys, step, ttl).lost
    ensures Loses(sys, step, ttl) <==>
              exists m :: m in NextFate(UNTOUCHED, sys, step, ttl).lost
    ensures !Loses(sys, step, ttl) ==> NextFate(f, sys, step, ttl).lost == f.lost
    ensures Loses(sys, step, ttl) ==> NextFate(f, sys, step, ttl).lost != {}
  {
    hide Scan, Readable, Survivors;
    if step.CrashIn? && step.op.GetOp? {
      CrashLosesIff(sys.s, step.op.want, ttl);
      if Loses(sys, step, ttl) {
        var m :| m in Unread(sys.s) && !IsExpired(m, sys.s.mem.now, ttl);
        assert m in NextFate(UNTOUCHED, sys, step, ttl).lost && m in NextFate(f, sys, step, ttl).lost;
      }
    }
  }

  /** Over every run: nothing is lost on the way back from a get if and only if no get was interrupted
      after it had removed the file with an unexpired message unread. */
  lemma {:induction false} LostIff(sys: System, f: Fate, steps: seq<Step>, ttl: Option<int>)
    requires Safe(sys, f) && CanRun(sys, steps, ttl)
    ensures Run(sys, f, steps, ttl).1.lost == {} <==> f.lost == {} && NeverLoses(sys, steps, ttl)
    decreases |steps|
  {
    if steps != [] {
      LosesStep(sys, f, steps[0], ttl);
      SafeStep(sys, f, steps[0], ttl);
      hide Safe, CanStep, Next, NextFate, Loses;
      LostIff(Next(sys, steps[0], ttl), NextFate(f, sys, steps[0], ttl), steps[1..], ttl);
    }
  }

  /** A message counted as dropped by a housekeeping was expired then, or came after one of the
      same key. */
  lemma DroppedWhy(s: State, wall: int, ttl: Option<int>, m: Message)
    requires m in SetOf(ToMerge(s.disk)) - SetOf(Merged(s.disk, wall, ttl))
    ensures IsExpired(m, wall, ttl)
         || exists i, j :: 0 <= i < j < |ToMerge(s.disk)| && ToMerge(s.disk)[j] == m
                        && CacheKey(ToMerge(s.disk)[i]) == CacheKey(m)
  {
    var ms := ToMerge(s.disk);
    SurvivorsAre(ms, wall, ttl, m);
    var j :| 0 <= j < |ms| && ms[j] == m;
    if !IsExpired(m, wall, ttl) {
      assert !IsFirstOfKey(ms, j);
    }
  }

  /** A crash before the rename leaves `.new` as it was.  After the restart the housekeeping can
      run again at once exactly when no line of the queue file is counted, and then it produces
      the very same files. */
  lemma RedoneBeforeRename(s: State, d: Disk, wall: int, restart: int, ttl: Option<int>, t: int)
    requires Consistent(s) && !Busy(s) && !Stale(s.disk) && BeforeRename(s, d)
    ensures var r := Recover(d, restart);
            && (Busy(r) <==> CountMsgs(LinesAt(s.disk, QueueFile)) > 0)
            && (!Busy(r) ==>
                  AfterHousekeeping(r, wall, ttl, t).disk == AfterHousekeeping(s, wall, ttl, t).disk)
  {
    if s.disk.queue.None? {
      assert CountMsgs(LinesAt(s.disk, QueueFile)) == 0;
    }
  }

  /** A crash between the rename and the removal of `.new`: the restart keeps the new generation
      whole, with an exact count, and discards the merged `.new` if and only if the file times
      have advanced in between; with equal times the `.new` is kept and merged again later. */
  lemma StaleDiscarded(s: State, d: Disk, wall: int, restart: int, ttl: Option<int>, t: int)
    requires Consistent(s) && AfterRename(s, wall, ttl, t, d)
    requires Merged(s.disk, wall, ttl) != [] && s.disk.recent.Some?
    ensures var r := Recover(d, restart);
            && Unread(r) == Merged(s.disk, wall, ttl)
            && r.mem.msgCount == |Merged(s.disk, wall, ttl)|
            && (r.disk.recent == None <==> t > s.disk.recent.value.mtime)
            && (r.disk.recent != None ==> Waiting(r) == Waiting(s))
  {
    var keep := Merged(s.disk, wall, ttl);
    ReadableEntries(keep);
    CountEntries(keep);
    assert Entries(keep)[0..] == Entries(keep);
  }

  /** One message, and a crash between the rename and the removal of `.new` when both files bear the
      same time: after the restart the message is to be read from the queue file and waits in `.new`
      as well. */
  lemma SameTimeKept(m: Message, t: int, wall: int)
    ensures var f := File([Entry(m)], t);
            var s := State(Disk(None, Some(f), None), Memory(0, 1, None, false, 0));
            var d := Disk(Some(f), Some(f), None);
            && Consistent(s) && AfterRename(s, wall, None, t, d)
            && Unread(Recover(d, wall)) == [m] && Waiting(Recover(d, wall)) == [m]
  {
    hide Scan, Survivors;
    var f := File([Entry(m)], t);
    var s := State(Disk(None, Some(f), None), Memory(0, 1, None, false, 0));
    OneLine(m);
    hide Readable;
    assert [] + [m] == [m];
    SurvivorsSnoc([], m, wall, None);
    assert Survivors([], wall, None) == [] by { SurvivorsInOrder([], wall, None); }
    assert Merged(s.disk, wall, None) == [m];
    assert Entries([m]) == [Entry(m)];
  }

  lemma OneLine(m: Message)
    ensures [Entry(m)][0..] == [Entry(m)] && Readable([Entry(m)]) == [m] && CountMsgs([Entry(m)]) == 1
    ensures Readable([]) == []
  {
    assert [Entry(m)][1..] == [];
  }

  lemma {:induction false} CountEntries(ms: seq<Message>)
    ensures CountMsgs(Entries(ms)) == |ms|
    decreases |ms|
  {
    if ms != [] {
      assert Entries(ms)[1..] == Entries(ms[1..]);
      CountEntries(ms[1..]);
    }
  }

  // What a restart brings back.

  function RunStates(s: State, ops: seq<Op>, ttl: Option<int>): State
    requires Consistent(s)
    decreases |ops|
  {
    if ops == [] then s
    else
      AfterConsistent(s, ops[0], ttl);
      RunStates(After(s, ops[0], ttl), ops[1..], ttl)
  }

  function Outputs(s: State, ops: seq<Op>, ttl: Option<int>): seq<Message>
    requires Consistent(s)
    decreases |ops|
  {
    if ops == [] then []
    else
      AfterConsistent(s, ops[0], ttl);
      Output(s, ops[0], ttl) + Outputs(After(s, ops[0], ttl), ops[1..], ttl)
  }

  /** No housekeeping of the run turns `.new` into the next generation. */
  ghost predicate NoRotation(s: State, ops: seq<Op>, ttl: Option<int>)
    requires Consistent(s)
    decreases |ops|
  {
    ops == []
    || (AfterConsistent(s, ops[0], ttl);
        && (ops[0].HousekeepingOp? ==> Busy(s))
        && NoRotation(After(s, ops[0], ttl), ops[1..], ttl))
  }

  /** `t` comes from `s` by reading `used` messages: the file is as it was, or gone when nothing in it
      was left to read. */
  ghost predicate ReadOn(s: State, t: State, used: nat, out: seq<Message>, ttl: Option<int>)
    requires Consistent(s) && Consistent(t)
  {
    && used <= |Unread(s)| && Unread(t) == Unread(s)[used..]
    && out == StripAcks(Unexpired(Unread(s)[..used], s.mem.now, ttl)) && t.mem.now == s.mem.now
    && (t.disk.queue == s.disk.queue || (t.disk.queue == None && Unread(t) == []))
  }

  lemma {:induction false} UnexpiredConcat(a: seq<Message>, b: seq<Message>, now: int, ttl: Option<int>)
    ensures Unexpired(a + b, now, ttl) == Unexpired(a, now, ttl) + Unexpired(b, now, ttl)
    decreases |a|
  {
    hide IsExpired;
    if a == [] {
      assert a + b == b;
    } else {
      UnexpiredConcat(a[1..], b, now, ttl);
      var head := if IsExpired(a[0], now, ttl) then [] else [a[0]];
      var rest, last := Unexpired(a[1..], now, ttl), Unexpired(b, now, ttl);
      calc {
        Unexpired(a + b, now, ttl);
        { assert (a + b)[0] == a[0] && (a + b)[1..] == a[1..] + b; }
        head + Unexpired(a[1..] + b, now, ttl);
        head + (rest + last);
        (head + rest) + last;
      }
    }
  }

  lemma ReadOnTrans(s: State, t: State, u: State, j: nat, k: nat, a: seq<Message>, b: seq<Message>, ttl: Option<int>)
    requires Consistent(s) && Consistent(t) && Consistent(u) && ReadOn(s, t, j, a, ttl) && ReadOn(t, u, k, b, ttl)
    ensures ReadOn(s, u, j + k, a + b, ttl)
  {
    hide Unread, Unexpired;
    var ms := Unread(s);
    assert ms[j..][k..] == ms[j + k..] && ms[..j + k] == ms[..j] + ms[j..][..k];
    UnexpiredConcat(ms[..j], ms[j..][..k], s.mem.now, ttl);
    var x, y := Unexpired(ms[..j], s.mem.now, ttl), Unexpired(ms[j..][..k], s.mem.now, ttl);
    assert StripAcks(x) + StripAcks(y) == StripAcks(x + y);
  }

  lemma ReadOnStep(s: State, op: Op, ttl: Option<int>) returns (used: nat)
    requires Consistent(s) && (op.HousekeepingOp? ==> Busy(s))
    ensures Consistent(After(s, op, ttl)) && ReadOn(s, After(s, op, ttl), used, Output(s, op, ttl), ttl)
  {
    AfterConsistent(s, op, ttl);
    used := 0;
    if op.GetOp? {
      GetReads(s, op.want, ttl);
      GetUses(s, op.want, ttl);
      used := Used(s, op.want, ttl);
      GetKeepsFile(s, op.want, ttl);
      hide Scan, Readable, Unexpired, AfterGet, Got, Unread;
    } else {
      if op.PutOp? {
        PutConsistent(s, op.ms, op.createdAt, op.writtenAt);
      }
      assert Unread(s)[0..] == Unread(s) && Unread(s)[..0] == [];
      assert StripAcks(Unexpired([], s.mem.now, ttl)) == [];
    }
  }

  lemma ReadNothing(s: State, ttl: Option<int>)
    requires Consistent(s)
    ensures ReadOn(s, s, 0, [], ttl)
  {
    hide Readable;
    assert Unread(s)[0..] == Unread(s) && Unread(s)[..0] == [];
    assert StripAcks(Unexpired([], s.mem.now, ttl)) == [];
  }

  lemma GetKeepsFile(s: State, want: nat, ttl: Option<int>)
    requires Consistent(s)
    ensures var t := AfterGet(s, want, ttl);
            && t.mem.now == s.mem.now && (t.disk.queue == s.disk.queue || t.disk.queue == None)
            && (t.disk.queue == None ==> PositionOk(t) && Unread(t) == [])
  {
  }

  lemma {:induction false} ReadOnRun(s: State, ops: seq<Op>, ttl: Option<int>) returns (used: nat)
    requires Consistent(s) && NoRotation(s, ops, ttl)
    ensures Consistent(RunStates(s, ops, ttl))
    ensures ReadOn(s, RunStates(s, ops, ttl), used, Outputs(s, ops, ttl), ttl)
    decreases |ops|
  {
    if ops == [] {
      used := 0;
      ReadNothing(s, ttl);
      hide *;
    } else {
      var j := ReadOnStep(s, ops[0], ttl);
      var t := After(s, ops[0], ttl);
      hide ReadOn, Consistent, After, Output, Unexpired, Unread;
      var k := ReadOnRun(t, ops[1..], ttl);
      ReadOnTrans(s, t, RunStates(t, ops[1..], ttl), j, k, Output(s, ops[0], ttl), Outputs(t, ops[1..], ttl), ttl);
      used := j + k;
    }
  }

  /** A restart, after a crash or a clean stop, at any time after a housekeeping: everything handed out
      since then comes again, with what was not handed out, if and only if the queue file is still
      there; otherwise nothing of that generation is left. */
  lemma ReadAgain(s: State, ops: seq<Op>, wall: int, ttl: Option<int>)
    requires Consistent(s) && s.mem.pos == None && NoRotation(s, ops, ttl)
    ensures Consistent(RunStates(s, ops, ttl))
    ensures var t := RunStates(s, ops, ttl);
            && Unread(Recover(t.disk, wall)) == (if t.disk.queue.Some? then Unread(s) else [])
            && (t.disk.queue.None? ==> Unread(t) == [])
            && exists used :: 0 <= used <= |Unread(s)| && Unread(t) == Unread(s)[used..]
                           && Outputs(s, ops, ttl) == StripAcks(Unexpired(Unread(s)[..used], s.mem.now, ttl))
  {
    var used := ReadOnRun(s, ops, ttl);
    var t := RunStates(s, ops, ttl);
    hide RunStates, Outputs, Readable, Unexpired;
    RecoverConsistent(t.disk, wall);
    assert 0 <= used <= |Unread(s)| && Unread(t) == Unread(s)[used..];
  }

  /** On intact files the file is still there if and only if something of it is unread: so what was
      handed out comes again exactly when not all of it was. */
  lemma {:induction false} FileLeftIff(s: State, ops: seq<Op>, ttl: Option<int>)
    requires Exact(s, ttl) && NoRotation(s, ops, ttl) && (s.disk.queue.Some? <==> Unread(s) != [])
    ensures var t := RunStates(s, ops, ttl); PositionOk(t) && (t.disk.queue.Some? <==> Unread(t) != [])
    decreases |ops|
  {
    if ops != [] {
      ExactStep(s, ops[0], ttl);
      match ops[0] {
        case PutOp(ms, c, w) => PutConsistent(s, ms, c, w);
        case GetOp(want) => ExactFile(s, want, ttl);
        case HousekeepingOp(_, _) =>
      }
      hide Exact, After, Unread;
      FileLeftIff(After(s, ops[0], ttl), ops[1..], ttl);
    }
  }

  lemma ExactFile(s: State, want: nat, ttl: Option<int>)
    requires Exact(s, ttl) && (s.disk.queue.Some? <==> Unread(s) != [])
    ensures var t := AfterGet(s, want, ttl); PositionOk(t) && (t.disk.queue.Some? <==> Unread(t) != [])
  {
    ExactGet(s, want, ttl);
    GetReads(s, want, ttl);
    GetKeepsFile(s, want, ttl);
    hide Scan, Readable;
  }

  // How long the queue says it is.

  /** What the queue gives as its length. */
  function Length(s: State): int {
    (if s.mem.msgCount > 0 then s.mem.msgCount else 0) + s.mem.msgCountNew
  }

  lemma {:induction false} LengthRun(s: State, ops: seq<Op>, ttl: Option<int>)
    requires Exact(s, ttl) && s.mem.msgCountNew == |Waiting(s)|
    ensures Exact(RunStates(s, ops, ttl), ttl)
    ensures RunStates(s, ops, ttl).mem.msgCountNew == |Waiting(RunStates(s, ops, ttl))|
    decreases |ops|
  {
    if ops != [] {
      ExactStep(s, ops[0], ttl);
      WaitingCounted(s, ops[0], ttl);
      hide Exact, After, Waiting;
      LengthRun(After(s, ops[0], ttl), ops[1..], ttl);
    }
  }

  lemma WaitingCounted(s: State, op: Op, ttl: Option<int>)
    requires Exact(s, ttl) && s.mem.msgCountNew == |Waiting(s)|
    ensures After(s, op, ttl).mem.msgCountNew == |Waiting(After(s, op, ttl))|
  {
    match op
    case PutOp(ms, c, w) => PutConsistent(s, ms, c, w);
    case GetOp(want) => GetReads(s, want, ttl);
    case HousekeepingOp(wall, t) => HousekeepingRotates(s, wall, ttl, t);
  }

  /** Over every run without crashes from an empty directory the length is the number of messages that can
      be got now or after the next housekeeping. */
  lemma LengthIs(ops: seq<Op>, wall: int, ttl: Option<int>)
    ensures var s0 := Recover(NO_FILES, wall);
            && Consistent(s0)
            && PositionOk(RunStates(s0, ops, ttl))
            && Length(RunStates(s0, ops, ttl)) == |Unread(RunStates(s0, ops, ttl))| + |Waiting(RunStates(s0, ops, ttl))|
  {
    var s0 := Recover(NO_FILES, wall);
    assert Waiting(s0) == [] && Unread(s0) == [];
    assert Exact(s0, ttl);
    LengthRun(s0, ops, ttl);
    hide RunStates, Waiting, Unread;
  }

  /** After a restart the length covers what can be got, if the queue file is there; if it is not the length
      is 0, whatever waits. */
  lemma LengthAfterRestart(d: Disk, wall: int)
    ensures var s := Recover(d, wall);
            if d.queue.Some? then PositionOk(s) && Length(s) >= |Unread(s)| + |Waiting(s)|
            else Length(s) == 0 && Waiting(s) == Readable(LinesAt(d, NewFile))
  {
    RecoverConsistent(d, wall);
    if d.recent.Some? {
      CountCoversReadable(d.recent.value.lines);
    }
  }

  /** A housekeeping with messages waiting turns them over if and only if none is counted in the queue file
      and that file is not open. */
  lemma TurnsOverIff(s: State, wall: int, ttl: Option<int>, merged: int)
    requires Consistent(s) && Waiting(s) != []
    ensures var t := AfterHousekeeping(s, wall, ttl, merged);
            (Waiting(t) == [] <==> s.mem.msgCount == 0 && (s.mem.pos.None? || s.disk.queue.None?))
            && (Waiting(t) != [] ==> t == s)
  {
    HousekeepingRotates(s, wall, ttl, merged);
    hide Survivors;
  }
}
