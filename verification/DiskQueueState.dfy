/** What the operations of the disk queue do to the files and to the process memory. */
module DiskQueueState {
  import opened Sequences
  import opened RetryMessage
  import opened DiskFiles

  /** The process memory: the read position is that of the open queue file, if it is open. */
  datatype Memory = Memory(msgCount: int, msgCountNew: int, pos: Option<nat>, newOpen: bool, now: int)

  datatype State = State(disk: Disk, mem: Memory)

  function From(s: State): nat {
    if s.mem.pos.Some? then s.mem.pos.value else 0
  }

  ghost predicate PositionOk(s: State) {
    s.mem.pos.Some? ==> s.disk.queue.Some? && s.mem.pos.value <= |s.disk.queue.value.lines|
  }

  /** The messages that later calls of get can still read. */
  function Unread(s: State): seq<Message>
    requires PositionOk(s)
  {
    if s.disk.queue.Some? then Readable(s.disk.queue.value.lines[From(s)..]) else []
  }

  /** What holds between calls: the count covers what can be read. */
  ghost predicate Consistent(s: State) {
    && PositionOk(s)
    && (s.disk.queue.None? ==> s.mem.msgCount == 0)
    && s.mem.msgCount >= |Unread(s)|
    && (s.mem.newOpen ==> s.disk.recent.Some?)
  }

  /** Start-up on whatever the previous process left: a `.new` older than the queue file has
      already been merged into it. */
  function Recover(d: Disk, wall: int): State {
    if d.queue.None? then State(d, Memory(0, 0, None, false, wall))
    else
      var count := CountMsgs(d.queue.value.lines);
      if d.recent.None? then State(d, Memory(count, 0, None, false, wall))
      else if d.queue.value.mtime > d.recent.value.mtime then
        State(d.(recent := None), Memory(count, 0, None, false, wall))
      else State(d, Memory(count, CountMsgs(d.recent.value.lines), None, false, wall))
  }

  /** `.new` is created at time `createdAt` if it is missing, and written at time `writtenAt`. */
  function OpenedForPut(d: Disk, createdAt: int): Disk {
    if d.recent.Some? then d else d.(recent := Some(File([], createdAt)))
  }

  function AfterPut(s: State, ms: seq<Message>, createdAt: int, writtenAt: int): State {
    var d := OpenedForPut(s.disk, createdAt);
    State(d.(recent := Some(Append(d.recent.value, ms, writtenAt))),
          s.mem.(msgCountNew := s.mem.msgCountNew + |ms|, newOpen := true))
  }

  /** Reading from `p` until `want` unexpired messages are found: what is found, how many
      messages were read for it, where reading stopped, and whether the file ran out. */
  datatype Scanned = Scanned(out: seq<Message>, used: nat, pos: nat, eof: bool)

  function Scan(lines: seq<Line>, p: nat, want: nat, now: int, ttl: Option<int>): (r: Scanned)
    requires p <= |lines|
    ensures p <= r.pos <= |lines|
    decreases |lines| - p
  {
    if want == 0 then Scanned([], 0, p, false)
    else match NextMsg(lines, p)
         case None => Scanned([], 0, p, true)
         case Some((m, p')) =>
           if IsExpired(m, now, ttl) then
             var r := Scan(lines, p', want, now, ttl);
             r.(used := r.used + 1)
           else
             var r := Scan(lines, p', want - 1, now, ttl);
             r.(out := [StripAck(m)] + r.out, used := r.used + 1)
  }

  function ScanFor(s: State, want: nat, ttl: Option<int>): Scanned
    requires PositionOk(s)
  {
    if s.disk.queue.None? then Scanned([], 0, 0, want > 0)
    else Scan(s.disk.queue.value.lines, From(s), want, s.mem.now, ttl)
  }

  function AfterGet(s: State, want: nat, ttl: Option<int>): State
    requires PositionOk(s)
  {
    if s.mem.msgCount == 0 && s.mem.pos.None? then s
    else
      var r := ScanFor(s, want, ttl);
      var left := if r.eof then 0 else s.mem.msgCount - r.used;
      if r.eof || left == 0 then State(s.disk.(queue := None), s.mem.(msgCount := 0, pos := None))
      else State(s.disk, s.mem.(msgCount := left, pos := if want == 0 then s.mem.pos else Some(r.pos)))
  }

  function Got(s: State, want: nat, ttl: Option<int>): seq<Message>
    requires PositionOk(s)
  {
    if s.mem.msgCount == 0 && s.mem.pos.None? then [] else ScanFor(s, want, ttl).out
  }

  /** Housekeeping waits until the previous generation has been read. */
  predicate Busy(s: State) {
    (s.disk.queue.Some? && s.mem.pos.Some?) || s.mem.msgCount != 0
  }

  /** What housekeeping reads: what is left of the queue file, then `.new`. */
  function ToMerge(d: Disk): seq<Message> {
    Readable(LinesAt(d, QueueFile)) + Readable(LinesAt(d, NewFile))
  }

  function Merged(d: Disk, wall: int, ttl: Option<int>): seq<Message> {
    Survivors(ToMerge(d), wall, ttl)
  }

  function AfterHousekeeping(s: State, wall: int, ttl: Option<int>, merged: int): State {
    if Busy(s) then s
    else
      var keep := Merged(s.disk, wall, ttl);
      State(if keep == [] then s.disk.(recent := None, hk := None)
            else Disk(Some(File(Entries(keep), merged)), None, None),
            Memory(|keep|, 0, None, false, wall))
  }

  // The disks a crash can leave behind during each operation.

  ghost predicate PutMoment(s: State, ms: seq<Message>, createdAt: int, writtenAt: int, d: Disk) {
    d == s.disk || d == OpenedForPut(s.disk, createdAt) || d == AfterPut(s, ms, createdAt, writtenAt).disk
  }

  ghost predicate GetMoment(s: State, want: nat, ttl: Option<int>, d: Disk)
    requires PositionOk(s)
  {
    d == s.disk || d == AfterGet(s, want, ttl).disk
  }

  /** Before the rename both inputs are untouched and `.hk` may hold anything; after it the
      merged file is in place, and `.new` is there until it is unlinked. */
  ghost predicate BeforeRename(s: State, d: Disk) {
    d.queue == s.disk.queue && d.recent == s.disk.recent
  }

  ghost predicate AfterRename(s: State, wall: int, ttl: Option<int>, merged: int, d: Disk) {
    && !Busy(s)
    && d == AfterHousekeeping(s, wall, ttl, merged).disk.(recent := s.disk.recent)
  }

  ghost predicate HousekeepingMoment(s: State, wall: int, ttl: Option<int>, merged: int, d: Disk) {
    || BeforeRename(s, d)
    || AfterRename(s, wall, ttl, merged, d)
    || d == AfterHousekeeping(s, wall, ttl, merged).disk
  }

  // Reading.

  function Unexpired(ms: seq<Message>, now: int, ttl: Option<int>): seq<Message> {
    if ms == [] then []
    else (if IsExpired(ms[0], now, ttl) then [] else [ms[0]]) + Unexpired(ms[1..], now, ttl)
  }

  /** What scanning `todo` for `want` messages may have done. */
  ghost predicate ScanOk(r: Scanned, rest: seq<Message>, todo: seq<Message>, want: nat, now: int, ttl: Option<int>) {
    && r.used <= |todo|
    && rest == todo[r.used..]
    && r.out == StripAcks(Unexpired(todo[..r.used], now, ttl))
    && |r.out| <= want
    && (r.eof ==> r.used == |todo|)
    && (!r.eof ==> |r.out| == want)
  }

  lemma ScanOkStart(todo: seq<Message>, p: nat, now: int, ttl: Option<int>)
    ensures ScanOk(Scanned([], 0, p, false), todo, todo, 0, now, ttl)
  {
  }

  lemma ScanOkEnd(todo: seq<Message>, want: nat, p: nat, now: int, ttl: Option<int>)
    requires todo == []
    ensures ScanOk(Scanned([], 0, p, true), todo, todo, want, now, ttl)
  {
  }

  lemma ScanOkStep(r: Scanned, rest: seq<Message>, m: Message, todo: seq<Message>, want: nat, now: int,
                   ttl: Option<int>)
    ensures IsExpired(m, now, ttl) && ScanOk(r, rest, todo, want, now, ttl)
        ==> ScanOk(r.(used := r.used + 1), rest, [m] + todo, want, now, ttl)
    ensures !IsExpired(m, now, ttl) && want > 0 && ScanOk(r, rest, todo, want - 1, now, ttl)
        ==> ScanOk(r.(out := [StripAck(m)] + r.out, used := r.used + 1), rest, [m] + todo, want, now, ttl)
  {
    if r.used <= |todo| {
      var taken := ([m] + todo)[..r.used + 1];
      assert taken[0] == m && taken[1..] == todo[..r.used];
      assert ([m] + todo)[r.used + 1..] == todo[r.used..];
      var kept := Unexpired(todo[..r.used], now, ttl);
      assert StripAcks([m] + kept) == [StripAck(m)] + StripAcks(kept);
      assert [] + kept == kept;
    }
  }

  lemma {:induction false} ScanReads(lines: seq<Line>, p: nat, want: nat, now: int, ttl: Option<int>)
    requires p <= |lines|
    ensures var r := Scan(lines, p, want, now, ttl);
            ScanOk(r, Readable(lines[r.pos..]), Readable(lines[p..]), want, now, ttl)
    decreases |lines| - p
  {
    if want > 0 {
      NextMsgReads(lines, p);
      var next := NextMsg(lines, p);
      hide NextMsg, Readable, ScanOk;
      if next.Some? {
        var (m, p') := next.value;
        var w := if IsExpired(m, now, ttl) then want else want - 1;
        ScanReads(lines, p', w, now, ttl);
        var r' := Scan(lines, p', w, now, ttl);
        ScanOkStep(r', Readable(lines[r'.pos..]), m, Readable(lines[p'..]), want, now, ttl);
      } else {
        ScanOkEnd(Readable(lines[p..]), want, p, now, ttl);
      }
    } else {
      ScanOkStart(Readable(lines[p..]), p, now, ttl);
    }
  }

  /** A scan under way: `ml` and `used` so far, `rest` still to come. */
  ghost predicate ScanSplit(whole: Scanned, ml: seq<Message>, used: nat, rest: Scanned) {
    && whole.out == ml + rest.out
    && whole.used == used + rest.used
    && whole.pos == rest.pos
    && whole.eof == rest.eof
  }

  lemma ScanForIsScan(s: State, want: nat, ttl: Option<int>)
    requires PositionOk(s)
    ensures ScanFor(s, want, ttl) == Scan(LinesAt(s.disk, QueueFile), From(s), want, s.mem.now, ttl)
  {
  }

  lemma ScanSplitStart(lines: seq<Line>, p: nat, want: nat, now: int, ttl: Option<int>)
    requires p <= |lines|
    ensures var whole := Scan(lines, p, want, now, ttl); ScanSplit(whole, [], 0, whole)
  {
    var out := Scan(lines, p, want, now, ttl).out;
    assert [] + out == out;
  }

  lemma ScanSplitEnd(lines: seq<Line>, p: nat, want: nat, now: int, ttl: Option<int>,
                     whole: Scanned, ml: seq<Message>, used: nat)
    requires p <= |lines| && (want == 0 || NextMsg(lines, p).None?)
    requires ScanSplit(whole, ml, used, Scan(lines, p, want, now, ttl))
    ensures whole == Scanned(ml, used, p, want > 0)
  {
    assert ml + [] == ml;
  }

  lemma ScanSplitStep(lines: seq<Line>, p: nat, want: nat, now: int, ttl: Option<int>,
                      whole: Scanned, ml: seq<Message>, used: nat)
    requires p <= |lines| && want > 0 && NextMsg(lines, p).Some?
    requires ScanSplit(whole, ml, used, Scan(lines, p, want, now, ttl))
    ensures var (m, p') := NextMsg(lines, p).value;
            if IsExpired(m, now, ttl) then
              ScanSplit(whole, ml, used + 1, Scan(lines, p', want, now, ttl))
            else
              ScanSplit(whole, ml + [StripAck(m)], used + 1, Scan(lines, p', want - 1, now, ttl))
  {
    var (m, p') := NextMsg(lines, p).value;
    if !IsExpired(m, now, ttl) {
      var rest := Scan(lines, p', want - 1, now, ttl).out;
      assert ml + ([StripAck(m)] + rest) == (ml + [StripAck(m)]) + rest;
    }
  }

  /** A get hands out, in order, the unexpired ones of the first `used` unread messages, leaves
      the rest unread, and gives fewer than asked only when nothing readable is left: it never
      removes the file while a message in it is unread. */
  lemma GetReads(s: State, want: nat, ttl: Option<int>)
    requires Consistent(s)
    ensures Consistent(AfterGet(s, want, ttl))
    ensures exists used :: 0 <= used <= |Unread(s)|
                        && Got(s, want, ttl) == StripAcks(Unexpired(Unread(s)[..used], s.mem.now, ttl))
                        && Unread(AfterGet(s, want, ttl)) == Unread(s)[used..]
    ensures |Got(s, want, ttl)| <= want
    ensures |Got(s, want, ttl)| < want ==> Unread(AfterGet(s, want, ttl)) == []
    ensures AfterGet(s, want, ttl).disk.recent == s.disk.recent
  {
    var s' := AfterGet(s, want, ttl);
    var used := 0;
    assert Unread(s) == Unread(s)[0..];
    if s.mem.msgCount == 0 && s.mem.pos.None? {
      assert Unread(s)[..0] == [];
    } else if s.disk.queue.Some? {
      var lines := s.disk.queue.value.lines;
      ScanReads(lines, From(s), want, s.mem.now, ttl);
      used := ScanFor(s, want, ttl).used;
      assert Unread(s') == Unread(s)[used..];
    }
    assert Got(s, want, ttl) == StripAcks(Unexpired(Unread(s)[..used], s.mem.now, ttl));
  }

  /** Start-up establishes the invariant on any disk, corrupt lines included. */
  lemma RecoverConsistent(d: Disk, wall: int)
    ensures Consistent(Recover(d, wall))
    ensures Recover(d, wall).disk.queue == d.queue
  {
    if d.queue.Some? {
      CountCoversReadable(d.queue.value.lines);
      assert d.queue.value.lines[0..] == d.queue.value.lines;
    }
  }

  lemma PutConsistent(s: State, ms: seq<Message>, createdAt: int, writtenAt: int)
    requires Consistent(s)
    ensures Consistent(AfterPut(s, ms, createdAt, writtenAt))
    ensures var s' := AfterPut(s, ms, createdAt, writtenAt);
            && Unread(s') == Unread(s)
            && Readable(LinesAt(s'.disk, NewFile)) == Readable(LinesAt(s.disk, NewFile)) + ms
            && s'.mem.msgCountNew == s.mem.msgCountNew + |ms| && s'.mem.newOpen
  {
    ReadableEntries(ms);
    ReadableConcat(LinesAt(s.disk, NewFile), Entries(ms));
    assert Readable(LinesAt(s.disk, NewFile)) + [] == Readable(LinesAt(s.disk, NewFile));
  }

  /** A housekeeping that runs finds nothing unread in the queue file, so the next generation is
      exactly the filtered `.new`; the count is exactly its size. */
  lemma HousekeepingRotates(s: State, wall: int, ttl: Option<int>, merged: int)
    requires Consistent(s)
    ensures Consistent(AfterHousekeeping(s, wall, ttl, merged))
    ensures !Busy(s) ==>
              var s' := AfterHousekeeping(s, wall, ttl, merged);
              && Unread(s) == [] && Readable(LinesAt(s.disk, QueueFile)) == []
              && Unread(s') == Survivors(Readable(LinesAt(s.disk, NewFile)), wall, ttl)
              && s'.mem.msgCount == |Unread(s')|
              && s'.disk.recent == None
  {
    if !Busy(s) {
      var s' := AfterHousekeeping(s, wall, ttl, merged);
      if s.disk.queue.Some? {
        assert s.disk.queue.value.lines[0..] == s.disk.queue.value.lines;
      }
      assert ToMerge(s.disk) == Readable(LinesAt(s.disk, NewFile));
      var keep := Merged(s.disk, wall, ttl);
      ReadableEntries(keep);
      assert Entries(keep)[0..] == Entries(keep);
    }
  }
}
