/** The disk-backed retry queue: the file operations in the order the program does them. */
module DiskQueue {
  import opened Sequences
  import opened RetryMessage
  import opened DiskFiles
  import opened DiskQueueState

  class DiskQueue {
    const fs: FileSystem
    const ttl: Option<int>
    var queueFp: Option<nat>
    var newOpen: bool
    var msgCount: int
    var msgCountNew: int
    var now: int
    var retryCache: set<string>

    function Current(): State
      reads this, fs
    {
      State(fs.disk, Memory(msgCount, msgCountNew, queueFp, newOpen, now))
    }

    ghost predicate Valid()
      reads this, fs
    {
      fs.Monotone() && Consistent(Current())
    }

    constructor (fs: FileSystem, ttl: Option<int>, wall: int)
      requires fs.Monotone()
      modifies fs
      ensures this.fs == fs && this.ttl == ttl && Valid()
      ensures Current() == Recover(old(fs.disk), wall)
      ensures forall d | d in fs.moments :: d == fs.disk
    {
      this.fs := fs;
      this.ttl := ttl;
      queueFp, newOpen, now, retryCache := None, false, wall, {};
      msgCount, msgCountNew := 0, 0;
      new;
      fs.Begin();
      RecoverConsistent(fs.disk, wall);
      if fs.disk.queue.None? {
        return;
      }
      var retryAge := fs.disk.queue.value.mtime;
      msgCount := CountLines(fs.disk.queue.value.lines);
      if fs.disk.recent.Some? {
        var newAge := fs.disk.recent.value.mtime;
        if retryAge > newAge {
          fs.Unlink(NewFile);
        } else {
          msgCountNew := CountLines(fs.disk.recent.value.lines);
        }
      }
    }

    static method CountLines(lines: seq<Line>) returns (count: nat)
      ensures count == CountMsgs(lines)
    {
      count := 0;
      var i := 0;
      while i < |lines|
        invariant 0 <= i <= |lines|
        invariant count + CountMsgs(lines[i..]) == CountMsgs(lines)
      {
        assert lines[i..][1..] == lines[i + 1..];
        if lines[i] != Corrupt(false) {
          count := count + 1;
        }
        i := i + 1;
      }
    }

    method Put(ms: seq<Message>)
      requires Valid()
      modifies this, fs
      ensures Valid()
      ensures exists createdAt, writtenAt ::
                && fs.clock(old(fs.ops)) <= createdAt <= writtenAt <= fs.clock(fs.ops)
                && Current() == AfterPut(old(Current()), ms, createdAt, writtenAt)
                && forall d | d in fs.moments :: PutMoment(old(Current()), ms, createdAt, writtenAt, d)
    {
      ghost var start, s := fs.ops, Current();
      fs.Begin();
      if !newOpen {
        fs.OpenAppend(NewFile);
        newOpen := true;
      }
      ghost var writtenAt := fs.ops;
      fs.Write(NewFile, ms);
      msgCountNew := msgCountNew + |ms|;
      PutConsistent(s, ms, fs.clock(start), fs.clock(writtenAt));
      assert fs.clock(start) <= fs.clock(writtenAt) <= fs.clock(fs.ops);
      assert Current() == AfterPut(s, ms, fs.clock(start), fs.clock(writtenAt));
    }

    /** The next decodable message of a file, opening it if there is no position yet. */
    method MsgGetFromFile(fp: Option<nat>, p: Path) returns (fp': Option<nat>, message: Option<Message>)
      requires fp.Some? ==> fp.value <= |LinesAt(fs.disk, p)|
      ensures var next := NextMsg(LinesAt(fs.disk, p), if fp.Some? then fp.value else 0);
              if next.None? then fp' == None && message == None
              else fp' == Some(next.value.1) && message == Some(next.value.0)
    {
      if fp.None? && At(fs.disk, p).None? {
        return None, None;
      }
      var at := if fp.Some? then fp.value else 0;
      var lines := LinesAt(fs.disk, p);
      ghost var from := at;
      while at < |lines|
        invariant from <= at <= |lines|
        invariant NextMsg(lines, from) == NextMsg(lines, at)
      {
        var line := lines[at];
        at := at + 1;
        if line.Entry? {
          return Some(at), Some(line.m);
        }
      }
      return None, None;
    }

    /** The reading loop of get: nothing on the disk changes. */
    method ReadUpTo(want: nat) returns (ml: seq<Message>, eof: bool)
      requires PositionOk(Current())
      modifies this`queueFp, this`msgCount
      ensures var s, r := old(Current()), ScanFor(old(Current()), want, ttl);
              && ml == r.out && eof == r.eof
              && (!eof ==> msgCount == s.mem.msgCount - r.used)
              && (!eof ==> queueFp == if want == 0 then s.mem.pos else Some(r.pos))
    {
      hide Scan, NextMsg;
      ScanForIsScan(Current(), want, ttl);
      ghost var start, from := queueFp, From(Current());
      ghost var count := msgCount;
      ghost var lines := LinesAt(fs.disk, QueueFile);
      ghost var whole := Scan(lines, from, want, now, ttl);
      ghost var used, at := 0, from;
      ml, eof := [], false;
      ScanSplitStart(lines, from, want, now, ttl);
      while |ml| < want
        invariant |ml| <= want && !eof
        invariant msgCount == count - used
        invariant at <= |lines| && at == if queueFp.Some? then queueFp.value else 0
        invariant if want == 0 then queueFp == start else |ml| == 0 || queueFp.Some?
        invariant ScanSplit(whole, ml, used, Scan(lines, at, want - |ml|, now, ttl))
        decreases |lines| - at
      {
        var fp, message := MsgGetFromFile(queueFp, QueueFile);
        queueFp := fp;
        if message.None? {
          ScanSplitEnd(lines, at, want - |ml|, now, ttl, whole, ml, used);
          eof := true;
          return;
        }
        ScanSplitStep(lines, at, want - |ml|, now, ttl, whole, ml, used);
        used, at := used + 1, fp.value;
        msgCount := msgCount - 1;
        if !IsExpired(message.value, now, ttl) {
          ml := ml + [StripAck(message.value)];
        }
      }
      ScanSplitEnd(lines, at, want - |ml|, now, ttl, whole, ml, used);
    }

    method Get(want: nat) returns (ml: seq<Message>)
      requires Valid()
      modifies this, fs
      ensures Valid()
      ensures Current() == AfterGet(old(Current()), want, ttl)
      ensures ml == Got(old(Current()), want, ttl)
      ensures forall d | d in fs.moments :: GetMoment(old(Current()), want, ttl, d)
    {
      GetReads(Current(), want, ttl);
      fs.Begin();
      if msgCount == 0 && queueFp.None? {
        return [];
      }
      var eof;
      ml, eof := ReadUpTo(want);
      if eof {
        fs.Unlink(QueueFile);
        queueFp := None;
        msgCount := 0;
      }
      // after the last message the file is removed
      if msgCount == 0 {
        fs.Unlink(QueueFile);
        queueFp := None;
      }
    }

    method InCache(message: Message) returns (found: bool)
      modifies this`retryCache
      ensures found <==> CacheKey(message) in old(retryCache)
      ensures retryCache == old(retryCache) + {CacheKey(message)}
    {
      found := CacheKey(message) in retryCache;
      retryCache := retryCache + {CacheKey(message)};
    }

    method NeedsRequeuing(message: Message) returns (r: bool)
      modifies this`retryCache
      ensures r <==> CacheKey(message) !in old(retryCache) && !IsExpired(message, now, ttl)
      ensures retryCache == old(retryCache) + {CacheKey(message)}
    {
      var found := InCache(message);
      r := !found && !IsExpired(message, now, ttl);
    }

    method Close()
      modifies this
      ensures queueFp == None && !newOpen && msgCount == 0 && msgCountNew == 0
      ensures unchanged(this`now) && unchanged(this`retryCache)
    {
      newOpen := false;
      queueFp := None;
      msgCount := 0;
      msgCountNew := 0;
    }

    /** The merge under way: `.hk` holds what is kept of the messages `read` so far, and the
        two input files have not been touched since `d`. */
    ghost predicate Merging(read: seq<Message>, d: Disk)
      reads this, fs
    {
      && retryCache == Keys(read)
      && fs.disk == d.(hk := fs.disk.hk) && fs.disk.hk.Some?
      && fs.disk.hk.value.lines == Entries(Survivors(read, now, ttl))
    }

    ghost predicate InputsKept(d: Disk)
      reads fs
    {
      forall x | x in fs.moments :: x.queue == d.queue && x.recent == d.recent
    }

    method MergeOne(m: Message, ghost read: seq<Message>, ghost d: Disk) returns (n: nat)
      requires Merging(read, d) && fs.Monotone() && InputsKept(d)
      modifies this`retryCache, fs
      ensures Merging(read + [m], d)
      ensures n == |Survivors(read + [m], now, ttl)| - |Survivors(read, now, ttl)|
      ensures fs.ops >= old(fs.ops) && InputsKept(d)
      ensures if n == 0 then fs.disk == old(fs.disk)
              else fs.clock(old(fs.ops)) <= fs.disk.hk.value.mtime <= fs.clock(fs.ops)
    {
      ghost var kept := Survivors(read, now, ttl);
      SurvivorsSnoc(read, m, now, ttl);
      KeysSnoc(read, m);
      var wanted := NeedsRequeuing(m);
      if !wanted {
        assert kept + [] == kept;
        return 0;
      }
      fs.Write(HkFile, [m]);
      assert Entries(kept) + Entries([m]) == Entries(kept + [m]);
      n := 1;
    }

    /** Appends to `.hk` what is kept of one file. */
    method MergeFile(p: Path, ghost before: seq<Message>, ghost d: Disk) returns (n: nat)
      requires p != HkFile && Merging(before, d) && fs.Monotone() && InputsKept(d)
      modifies this`retryCache, fs
      ensures Merging(before + Readable(LinesAt(d, p)), d)
      ensures n == |Survivors(before + Readable(LinesAt(d, p)), now, ttl)| - |Survivors(before, now, ttl)|
      ensures fs.ops >= old(fs.ops) && InputsKept(d)
      ensures n > 0 || fs.disk == old(fs.disk)
      ensures n > 0 ==> fs.clock(old(fs.ops)) <= fs.disk.hk.value.mtime <= fs.clock(fs.ops)
    {
      hide Survivors, Keys, NextMsg, Readable;
      n := 0;
      ghost var lines, all := LinesAt(d, p), before + Readable(LinesAt(d, p));
      ghost var read, at := before, 0;
      var fp: Option<nat> := None;
      assert lines[0..] == lines;
      while true
        invariant at <= |lines| && at == if fp.Some? then fp.value else 0
        invariant all == read + Readable(lines[at..])
        invariant Merging(read, d)
        invariant n == |Survivors(read, now, ttl)| - |Survivors(before, now, ttl)|
        invariant fs.ops >= old(fs.ops) && InputsKept(d)
        invariant n > 0 || fs.disk == old(fs.disk)
        invariant n > 0 ==> fs.clock(old(fs.ops)) <= fs.disk.hk.value.mtime <= fs.clock(fs.ops)
        decreases |lines| - at
      {
        NextMsgReads(lines, at);
        var next, message := MsgGetFromFile(fp, p);
        if message.None? {
          assert all == read;
          return;
        }
        ghost var rest := Readable(lines[next.value..]);
        assert read + ([message.value] + rest) == (read + [message.value]) + rest;
        var one := MergeOne(message.value, read, d);
        n := n + one;
        read, at := read + [message.value], next.value;
        fp := next;
      }
    }

    /** A new `.hk` with what is kept of both files. */
    method MergeAll(ghost d: Disk) returns (n: nat)
      requires fs.Monotone() && fs.disk == d && retryCache == {} && InputsKept(d)
      modifies this`retryCache, fs
      ensures Merging(ToMerge(d), d)
      ensures n == |Merged(d, now, ttl)|
      ensures fs.ops >= old(fs.ops) && InputsKept(d)
      ensures n > 0 ==> fs.clock(old(fs.ops)) <= fs.disk.hk.value.mtime <= fs.clock(fs.ops)
    {
      fs.Unlink(HkFile);
      fs.CreateEmpty(HkFile);
      fs.OpenAppend(HkFile);
      var fromQueue := MergeFile(QueueFile, [], d);
      ghost var queued := Readable(LinesAt(d, QueueFile));
      assert [] + queued == queued;
      var fromNew := MergeFile(NewFile, queued, d);
      n := fromQueue + fromNew;
    }

    method OnHousekeeping(wall: int)
      requires Valid()
      modifies this, fs
      ensures Valid()
      ensures exists merged ::
                && fs.clock(old(fs.ops)) <= merged <= fs.clock(fs.ops)
                && Current() == AfterHousekeeping(old(Current()), wall, ttl, merged)
                && forall d | d in fs.moments :: HousekeepingMoment(old(Current()), wall, ttl, merged, d)
    {
      hide Survivors, Readable, Keys, Entries;
      ghost var s, start := Current(), fs.ops;
      ghost var merged := fs.clock(start);
      fs.Begin();
      if (fs.disk.queue.Some? && queueFp.Some?) || msgCount != 0 {
        assert Current() == AfterHousekeeping(s, wall, ttl, merged);
        return;
      }
      now := wall;
      retryCache := {};
      Close();
      var total := MergeAll(s.disk);
      assert forall d | d in fs.moments :: BeforeRename(s, d);
      HousekeepingRotates(s, wall, ttl, merged);
      if total == 0 {
        fs.Unlink(HkFile);
      } else {
        merged := fs.disk.hk.value.mtime;
        HousekeepingRotates(s, wall, ttl, merged);
        fs.Rename(HkFile, QueueFile);
      }
      msgCount := total;
      msgCountNew := 0;
      fs.Unlink(NewFile);
      assert Current() == AfterHousekeeping(s, wall, ttl, merged);
    }
  }
}
