/** A housekeeping of the disk queue in which the filter raises: the error is swallowed, and the files
    are renamed and removed all the same. */
module DiskQueueFaults {
  import opened Sequences
  import opened RetryMessage
  import opened DiskFiles
  import opened DiskQueueState

  /** For which messages the key can be computed: the fields it is made of are there. */
  type Keyed = Message -> bool

  /** How many messages come before the first one whose key cannot be computed. */
  function FirstFault(ms: seq<Message>, keyed: Keyed): (k: nat)
    ensures k <= |ms|
    ensures forall i | 0 <= i < k :: keyed(ms[i])
    ensures k < |ms| ==> !keyed(ms[k])
  {
    if ms == [] || !keyed(ms[0]) then 0 else 1 + FirstFault(ms[1..], keyed)
  }

  ghost predicate Raises(s: State, keyed: Keyed) {
    !Busy(s) && exists m :: m in ToMerge(s.disk) && !keyed(m)
  }

  /** What was written before the filter raised. */
  function Written(s: State, wall: int, ttl: Option<int>, keyed: Keyed): seq<Message> {
    Survivors(ToMerge(s.disk)[..FirstFault(ToMerge(s.disk), keyed)], wall, ttl)
  }

  /** `.hk` is not closed when the filter raises: of what was written a part is in the file, the last
      line of it perhaps torn. */
  ghost predicate PartOf(lines: seq<Line>, ms: seq<Message>, v: nat) {
    v <= |ms| && (lines == Entries(ms[..v]) || exists b :: lines == Entries(ms[..v]) + [Corrupt(b)])
  }

  /** What a housekeeping leaves. With no message to raise at it is the ordinary one, on a file that
      was closed; `lines` is what is in `.hk` when it is renamed. */
  function AfterFaulty(s: State, wall: int, ttl: Option<int>, merged: int, keyed: Keyed, lines: seq<Line>): State {
    if Busy(s) then s
    else
      var keep := Written(s, wall, ttl, keyed);
      State(if keep == [] then s.disk.(recent := None, hk := None) else Disk(Some(File(lines, merged)), None, None),
            Memory(|keep|, 0, None, false, wall))
  }

  /** What `.hk` can hold at the rename. */
  ghost predicate InFile(s: State, wall: int, ttl: Option<int>, keyed: Keyed, lines: seq<Line>, v: nat) {
    && PartOf(lines, Written(s, wall, ttl, keyed), v)
    && (!Raises(s, keyed) ==> lines == Entries(Written(s, wall, ttl, keyed)) && v == |Written(s, wall, ttl, keyed)|)
  }

  lemma PartReads(lines: seq<Line>, ms: seq<Message>, v: nat)
    requires PartOf(lines, ms, v)
    ensures Readable(lines) == ms[..v]
  {
    ReadableEntries(ms[..v]);
    if lines != Entries(ms[..v]) {
      var b :| lines == Entries(ms[..v]) + [Corrupt(b)];
      ReadableConcat(Entries(ms[..v]), [Corrupt(b)]);
      assert Readable([Corrupt(b)]) == [];
      assert ms[..v] + [] == ms[..v];
    }
  }

  /** A housekeeping that raises keeps the count covering what can be read; and what can be read is a
      prefix of what would have been kept of the messages before the one it raised at. */
  lemma FaultyReads(s: State, wall: int, ttl: Option<int>, merged: int, keyed: Keyed, lines: seq<Line>, v: nat)
    requires Consistent(s) && !Busy(s) && InFile(s, wall, ttl, keyed, lines, v)
    ensures var t := AfterFaulty(s, wall, ttl, merged, keyed, lines);
            && Consistent(t) && t.disk.recent == None
            && Unread(t) == Written(s, wall, ttl, keyed)[..v]
  {
    HousekeepingRotates(s, wall, ttl, merged);
    hide Survivors, Readable, InFile;
    var keep := Written(s, wall, ttl, keyed);
    assert PartOf(lines, keep, v) by { Inside(s, wall, ttl, keyed, lines, v); }
    PartReads(lines, keep, v);
    if keep == [] {
      assert Unread(AfterFaulty(s, wall, ttl, merged, keyed, lines)) == Readable(LinesAt(s.disk, QueueFile))[0..] by {
        NothingKept(s, wall, ttl, merged, keyed, lines);
      }
    } else {
      assert lines[0..] == lines;
    }
  }

  lemma Inside(s: State, wall: int, ttl: Option<int>, keyed: Keyed, lines: seq<Line>, v: nat)
    requires InFile(s, wall, ttl, keyed, lines, v)
    ensures PartOf(lines, Written(s, wall, ttl, keyed), v)
  {
  }

  lemma NothingKept(s: State, wall: int, ttl: Option<int>, merged: int, keyed: Keyed, lines: seq<Line>)
    requires !Busy(s) && Written(s, wall, ttl, keyed) == []
    ensures Unread(AfterFaulty(s, wall, ttl, merged, keyed, lines)) == Readable(LinesAt(s.disk, QueueFile))
  {
    if s.disk.queue.Some? {
      assert s.disk.queue.value.lines[0..] == s.disk.queue.value.lines;
    }
  }

  lemma NoFault(ms: seq<Message>, keyed: Keyed)
    ensures FirstFault(ms, keyed) == |ms| <==> forall m | m in ms :: keyed(m)
  {
    var k := FirstFault(ms, keyed);
    if k == |ms| {
      forall m | m in ms ensures keyed(m) {
        var i :| 0 <= i < |ms| && ms[i] == m;
      }
    } else {
      assert ms[k] in ms;
    }
  }

  /** Why a message may rightly not be kept: it is expired, or a message before it has its key. */
  ghost predicate Discarded(ms: seq<Message>, i: nat, wall: int, ttl: Option<int>)
    requires i < |ms|
  {
    IsExpired(ms[i], wall, ttl) || !IsFirstOfKey(ms, i)
  }

  /** Every message that waited can still be read or was rightly discarded. */
  ghost predicate AllAccounted(s: State, t: State, wall: int, ttl: Option<int>, keyed: Keyed)
    requires PositionOk(t)
  {
    var ms := ToMerge(s.disk);
    forall i | 0 <= i < |ms| :: ms[i] in Unread(t) || (keyed(ms[i]) && Discarded(ms, i, wall, ttl))
  }

  lemma KeptOrDiscarded(ms: seq<Message>, i: nat, wall: int, ttl: Option<int>)
    requires i < |ms|
    ensures ms[i] in Survivors(ms, wall, ttl) || Discarded(ms, i, wall, ttl)
  {
    SurvivorsAre(ms, wall, ttl, ms[i]);
  }

  /** A housekeeping accounts for every message if and only if it does not raise. When it does, then
      whatever `.hk` holds, the message it raised at and every one after it is gone, unless an equal
      message came before. */
  lemma RaisesIff(s: State, wall: int, ttl: Option<int>, merged: int, keyed: Keyed, lines: seq<Line>, v: nat)
    requires Consistent(s) && !Busy(s) && InFile(s, wall, ttl, keyed, lines, v)
    ensures PositionOk(AfterFaulty(s, wall, ttl, merged, keyed, lines))
    ensures var t, ms := AfterFaulty(s, wall, ttl, merged, keyed, lines), ToMerge(s.disk);
            && (AllAccounted(s, t, wall, ttl, keyed) <==> !Raises(s, keyed))
            && forall m | m in Unread(t) :: m in ms[..FirstFault(ms, keyed)]
  {
    var ms := ToMerge(s.disk);
    var k := FirstFault(ms, keyed);
    NoFault(ms, keyed);
    FaultyReads(s, wall, ttl, merged, keyed, lines, v);
    var keep := Written(s, wall, ttl, keyed);
    forall m | m in keep[..v] ensures m in ms[..k] {
      SurvivorsInOrder(ms[..k], wall, ttl);
      SubseqMember(keep, ms[..k], m);
    }
    if Raises(s, keyed) {
      assert !keyed(ms[k]) && ms[k] !in ms[..k];
    } else {
      assert ms[..k] == ms && keep[..v] == keep;
      forall i | 0 <= i < |ms| ensures ms[i] in keep || Discarded(ms, i, wall, ttl) {
        KeptOrDiscarded(ms, i, wall, ttl);
      }
    }
    hide Survivors, Readable, AfterFaulty, InFile, Discarded;
  }

  /** Two messages, the first without a key: the second, however new, is gone with it. */
  lemma OneSpoilsAll(bad: Message, good: Message, t: int, wall: int, merged: int, lines: seq<Line>)
    requires bad != good
    ensures var s := State(Disk(None, Some(File([Entry(bad), Entry(good)], t)), None), Memory(0, 2, None, true, 0));
            var keyed := m => m != bad;
            && Consistent(s) && Raises(s, keyed)
            && AfterFaulty(s, wall, None, merged, keyed, lines)
            == State(Disk(None, None, None), Memory(0, 0, None, false, wall))
  {
    var both := [Entry(bad), Entry(good)];
    assert both[1..] == [Entry(good)] && both[1..][1..] == [];
    assert Readable(both[1..]) == [good];
    assert Readable(both) == [bad] + [good] == [bad, good];
    assert [] + [bad, good] == [bad, good];
    var s := State(Disk(None, Some(File(both, t)), None), Memory(0, 2, None, true, 0));
    assert ToMerge(s.disk) == [bad, good];
    assert bad in [bad, good];
    assert [bad, good][..0] == [];
  }
}
