/** The three state files of a disk queue, and the file operations used on them. */
module DiskFiles {
  import opened Sequences
  import opened RetryMessage

  /** A line of a state file: an encoded message, or text that does not decode to one.
      An encoded message always contains a brace; a corrupt line may or may not. */
  datatype Line = Entry(m: Message) | Corrupt(brace: bool)

  datatype File = File(lines: seq<Line>, mtime: int)

  /** `recent` is the `.new` file. */
  datatype Disk = Disk(queue: Option<File>, recent: Option<File>, hk: Option<File>)

  datatype Path = QueueFile | NewFile | HkFile

  function At(d: Disk, p: Path): Option<File> {
    match p
    case QueueFile => d.queue
    case NewFile => d.recent
    case HkFile => d.hk
  }

  function With(d: Disk, p: Path, f: Option<File>): Disk {
    match p
    case QueueFile => d.(queue := f)
    case NewFile => d.(recent := f)
    case HkFile => d.(hk := f)
  }

  function LinesAt(d: Disk, p: Path): seq<Line> {
    if At(d, p).Some? then At(d, p).value.lines else []
  }

  function Entries(ms: seq<Message>): (r: seq<Line>)
    ensures |r| == |ms|
    ensures forall i | 0 <= i < |ms| :: r[i] == Entry(ms[i])
  {
    seq(|ms|, i requires 0 <= i < |ms| => Entry(ms[i]))
  }

  function Decoded(line: Line): seq<Message> {
    match line
    case Entry(m) => [m]
    case Corrupt(_) => []
  }

  function Readable(lines: seq<Line>): seq<Message> {
    if lines == [] then [] else Decoded(lines[0]) + Readable(lines[1..])
  }

  /** The number of lines holding a brace, which is what the restart code counts. */
  function CountMsgs(lines: seq<Line>): nat {
    if lines == [] then 0
    else (if lines[0] == Corrupt(false) then 0 else 1) + CountMsgs(lines[1..])
  }

  /** The next decodable line at or after `p`, and the position behind it. */
  function NextMsg(lines: seq<Line>, p: nat): (r: Option<(Message, nat)>)
    requires p <= |lines|
    ensures r.Some? ==> p < r.value.1 <= |lines|
    decreases |lines| - p
  {
    if p == |lines| then None
    else match lines[p]
         case Entry(m) => Some((m, p + 1))
         case Corrupt(_) => NextMsg(lines, p + 1)
  }

  lemma {:induction false} NextMsgReads(lines: seq<Line>, p: nat)
    requires p <= |lines|
    ensures match NextMsg(lines, p)
            case None => Readable(lines[p..]) == []
            case Some((m, p')) => Readable(lines[p..]) == [m] + Readable(lines[p'..])
    decreases |lines| - p
  {
    if p < |lines| {
      assert lines[p..][1..] == lines[p + 1..];
      if lines[p].Corrupt? {
        NextMsgReads(lines, p + 1);
      }
    }
  }

  lemma {:induction false} ReadableConcat(a: seq<Line>, b: seq<Line>)
    ensures Readable(a + b) == Readable(a) + Readable(b)
    decreases |a|
  {
    if a == [] {
      assert a + b == b;
    } else {
      ReadableConcat(a[1..], b);
      var head, rest := Decoded(a[0]), Readable(a[1..]);
      calc {
        Readable(a + b);
        { assert (a + b)[0] == a[0] && (a + b)[1..] == a[1..] + b; }
        head + Readable(a[1..] + b);
        head + (rest + Readable(b));
        (head + rest) + Readable(b);
      }
    }
  }

  lemma {:induction false} ReadableEntries(ms: seq<Message>)
    ensures Readable(Entries(ms)) == ms
    decreases |ms|
  {
    if ms != [] {
      assert Entries(ms)[1..] == Entries(ms[1..]);
      ReadableEntries(ms[1..]);
    }
  }

  /** The restart count is never below the number of messages that can be read back. */
  lemma {:induction false} CountCoversReadable(lines: seq<Line>)
    ensures CountMsgs(lines) >= |Readable(lines)|
    decreases |lines|
  {
    if lines != [] {
      CountCoversReadable(lines[1..]);
    }
  }

  function Append(f: File, ms: seq<Message>, t: int): File {
    if ms == [] then f else File(f.lines + Entries(ms), t)
  }

  /** A directory that survives the process.  `moments` collects the disk after every operation
      of the call under way: the states a crash during that call may leave behind. */
  class FileSystem {
    const clock: nat -> int
    var ops: nat
    var disk: Disk
    ghost var moments: set<Disk>

    ghost predicate Monotone() {
      forall i: nat, j: nat | i <= j :: clock(i) <= clock(j)
    }

    /** The start of a call. */
    ghost method Begin()
      modifies this`moments
      ensures moments == {}
    {
      moments := {};
    }

    method Unlink(p: Path)
      modifies this
      ensures disk == With(old(disk), p, None)
      ensures ops == old(ops) + 1 && moments == old(moments) + {disk}
    {
      disk := With(disk, p, None);
      ops := ops + 1;
      moments := moments + {disk};
    }

    method CreateEmpty(p: Path)
      modifies this
      ensures disk == With(old(disk), p, Some(File([], clock(old(ops)))))
      ensures ops == old(ops) + 1 && moments == old(moments) + {disk}
    {
      disk := With(disk, p, Some(File([], clock(ops))));
      ops := ops + 1;
      moments := moments + {disk};
    }

    method OpenAppend(p: Path)
      modifies this
      ensures disk == if At(old(disk), p).Some? then old(disk)
                      else With(old(disk), p, Some(File([], clock(old(ops)))))
      ensures ops == old(ops) + 1 && moments == old(moments) + {disk}
    {
      if At(disk, p).None? {
        disk := With(disk, p, Some(File([], clock(ops))));
      }
      ops := ops + 1;
      moments := moments + {disk};
    }

    /** Writes encoded messages at the end of a file and flushes them. */
    method Write(p: Path, ms: seq<Message>)
      requires At(disk, p).Some?
      modifies this
      ensures disk == With(old(disk), p, Some(Append(At(old(disk), p).value, ms, clock(old(ops)))))
      ensures ops == old(ops) + 1 && moments == old(moments) + {disk}
    {
      disk := With(disk, p, Some(Append(At(disk, p).value, ms, clock(ops))));
      ops := ops + 1;
      moments := moments + {disk};
    }

    method Rename(p: Path, q: Path)
      requires At(disk, p).Some? && p != q
      modifies this
      ensures disk == With(With(old(disk), q, At(old(disk), p)), p, None)
      ensures ops == old(ops) + 1 && moments == old(moments) + {disk}
    {
      disk := With(With(disk, q, At(disk, p)), p, None);
      ops := ops + 1;
      moments := moments + {disk};
    }
  }
}
