/** The messages a flow works on, and what it decides for each of them. Whatever the outside world
    answers is a parameter: a theorem holds for all its answers. */
module Worklist {
  import opened Sequences

  datatype FileOp = FileOp(rename: bool, link: bool, hlink: bool, directory: bool, remove: bool)

  /** `retries` is the retry counter the retry plugin keeps in the message (0 when absent), and
      `report` the code last reported (0 when none). `tries` and `posts` count the passes in which the
      message was handed to a transfer and to the publication; the program keeps no such fields. */
  datatype Message = Message(
    id: nat,
    pubTime: int,
    mtime: Option<int>,
    fileOp: Option<FileOp>,
    newname: bool,
    newDir: bool,
    newFile: bool,
    size: Option<nat>,
    content: bool,
    inplace: bool,
    renameUnlink: bool,
    report: nat,
    retries: nat,
    tries: nat,
    posts: nat)

  datatype Mask = Mask(any: bool, accepting: bool)

  datatype Event = Mkdir | Rmdir | Delete | Link

  datatype Inflight = NoInflight | Named | Interval

  datatype Options = Options(
    poll: bool,
    sender: bool,
    messageAgeMax: int,
    fileAgeMax: int,
    fileAgeMin: int,
    masks: seq<Mask>,
    acceptUnmatched: bool,
    download: bool,
    attempts: int,
    events: set<Event>,
    fileSizeMax: int,
    inflight: Inflight,
    overwrite: bool,
    batch: nat,
    retryCountMax: int,
    refilter: bool,
    publishing: bool)

  datatype Fetched = Done | Gone | NotYet

  /** The answers given while one list is worked through: for the message at a position, and where
      it is asked more than once, for the attempt or the mask. */
  datatype World = World(
    now: int,
    matches: (nat, nat) -> bool,
    oldMatches: nat -> bool,
    fieldsOk: nat -> bool,
    dirSet: nat -> bool,
    fileSet: nat -> bool,
    dirThere: nat -> bool,
    makeDirs: nat -> bool,
    enter: nat -> bool,
    rename: (nat, int) -> bool,
    removeOne: (nat, int) -> bool,
    mkdir: (nat, int) -> bool,
    link: (nat, int) -> bool,
    inflightThere: nat -> bool,
    fileThere: nat -> bool,
    unwanted: nat -> Option<nat>,
    inline: nat -> bool,
    fetch: (nat, int) -> Fetched,
    send: (nat, int) -> int,
    publish: nat -> bool)

  predicate IsRename(m: Message) {
    m.fileOp.Some? && m.fileOp.value.rename
  }

  /** Where a message is put; `Nowhere` is no list at all. */
  datatype Place = Incoming | Ok | Rejected | Failed | Nowhere

  datatype Entry = Entry(place: Place, m: Message)

  // Filtering.

  predicate TooOld(m: Message, o: Options, now: int) {
    o.messageAgeMax != 0 && now - m.pubTime > o.messageAgeMax
  }

  predicate FileTooOld(m: Message, o: Options, now: int) {
    m.mtime.Some? && o.fileAgeMax > 0 && now - m.mtime.value > o.fileAgeMax
  }

  predicate FileTooYoung(m: Message, o: Options, now: int) {
    m.mtime.Some? && !o.poll && o.fileAgeMin > 0 && now - m.mtime.value < o.fileAgeMin
  }

  predicate Hits(o: Options, w: World, i: nat, k: nat)
    requires k < |o.masks|
  {
    o.masks[k].any || w.matches(i, k)
  }

  /** `k` is the first mask that the message's path meets. */
  ghost predicate FirstMask(o: Options, w: World, i: nat, k: Option<nat>) {
    if k.Some? then k.value < |o.masks| && Hits(o, w, i, k.value) && forall j: nat | j < k.value :: !Hits(o, w, i, j)
    else forall j: nat | j < |o.masks| :: !Hits(o, w, i, j)
  }

  /** The old name of a renamed file is compared with the first mask only. */
  predicate OldAccepted(o: Options, w: World, i: nat) {
    o.masks != [] && (o.masks[0].any || w.oldMatches(i)) && o.masks[0].accepting
  }

  function MaskFrom(o: Options, w: World, i: nat, k: nat): (r: Option<nat>)
    requires k <= |o.masks|
    ensures r.Some? ==> k <= r.value < |o.masks|
    decreases |o.masks| - k
  {
    if k == |o.masks| then None else if Hits(o, w, i, k) then Some(k) else MaskFrom(o, w, i, k + 1)
  }

  lemma {:induction false} MaskFromFirst(o: Options, w: World, i: nat, k: nat)
    requires k <= |o.masks| && forall j: nat | j < k :: !Hits(o, w, i, j)
    ensures FirstMask(o, w, i, MaskFrom(o, w, i, k))
    decreases |o.masks| - k
  {
    if k < |o.masks| && !Hits(o, w, i, k) {
      MaskFromFirst(o, w, i, k + 1);
    }
  }

  function Refuse(m: Message, code: nat): Entry {
    Entry(Rejected, m.(report := code))
  }

  /** The fields that say where the file of an accepted message goes are computed, or the message is
      refused because they cannot be. */
  function Take(m: Message, w: World, i: nat): Entry {
    if w.fieldsOk(i) then Entry(Incoming, m.(newDir := w.dirSet(i), newFile := w.fileSet(i))) else Refuse(m, 404)
  }

  function ByMask(m: Message, o: Options, w: World, i: nat): Entry {
    var leaves := IsRename(m) && OldAccepted(o, w, i);
    match MaskFrom(o, w, i, 0)
    case Some(k) =>
      if o.masks[k].accepting then Take(m, w, i)
      else if leaves then Entry(Nowhere, m.(renameUnlink := true))
      else Refuse(m, 404)
    case None =>
      if leaves then Take(m.(renameUnlink := true), w, i)
      else if o.acceptUnmatched then Take(m, w, i)
      else Refuse(m, 404)
  }

  function FilterOne(m: Message, o: Options, w: World, i: nat): Entry {
    if TooOld(m, o, w.now) then Refuse(m, 504)
    else if FileTooOld(m, o, w.now) then Refuse(m, 410)
    else if FileTooYoung(m, o, w.now) then Entry(Failed, m)
    else ByMask(m, o, w, i)
  }

  ghost predicate OfAge(m: Message, o: Options, now: int) {
    !TooOld(m, o, now) && !FileTooOld(m, o, now) && !FileTooYoung(m, o, now)
  }

  ghost predicate MeetsFirst(o: Options, w: World, i: nat, accepting: bool) {
    exists j: nat :: && j < |o.masks| && Hits(o, w, i, j) && o.masks[j].accepting == accepting
                     && forall h: nat | h < j :: !Hits(o, w, i, h)
  }

  ghost predicate MeetsNone(o: Options, w: World, i: nat) {
    forall h: nat | h < |o.masks| :: !Hits(o, w, i, h)
  }

  /** The guard of the branch that puts a message on no list: it is of age, it renames a file whose
      old name the first mask accepts, and the first mask its new name meets refuses it. */
  ghost predicate Vanishes(m: Message, o: Options, w: World, i: nat) {
    OfAge(m, o, w.now) && IsRename(m) && OldAccepted(o, w, i) && MeetsFirst(o, w, i, false)
  }

  /** A message is put on no list if and only if it is young and old enough, it renames a file whose
      old name the first mask accepts, and the first mask its new name meets refuses it. */
  lemma DroppedIff(m: Message, o: Options, w: World, i: nat)
    ensures FilterOne(m, o, w, i).place == Nowhere <==> Vanishes(m, o, w, i)
  {
    MaskFromFirst(o, w, i, 0);
    var k := MaskFrom(o, w, i, 0);
    if MeetsFirst(o, w, i, false) {
      var j: nat :| && j < |o.masks| && Hits(o, w, i, j) && !o.masks[j].accepting
                    && forall h: nat | h < j :: !Hits(o, w, i, h);
      assert k.Some? && k.value == j;
    }
    if k.Some? {
      assert MeetsFirst(o, w, i, o.masks[k.value].accepting);
    }
  }

  /** A file is renamed from a name that the first mask accepts to one that only the second meets, which
      refuses everything. */
  const MOVED := Message(0, 0, None, Some(FileOp(true, false, false, false, false)), false, false, false, None,
                         false, false, false, 0, 0, 0, 0)
  const OLD_ONLY := Options(false, false, 0, 0, 0, [Mask(false, true), Mask(true, false)], false, true, 1, {}, 0,
                            NoInflight, true, 2, 0, false, false)
  const OLD_MATCHES := World(0, (i, k) => false, i => true, i => true, i => true, i => true, i => true, i => true,
                             i => true, (i, a) => true, (i, a) => true, (i, a) => true, (i, a) => true, i => false,
                             i => false, i => None, i => false, (i, a) => Done, (i, a) => 0, i => true)

  lemma MovedVanishes()
    ensures Vanishes(MOVED, OLD_ONLY, OLD_MATCHES, 0)
  {
    var j: nat := 1;
    assert Hits(OLD_ONLY, OLD_MATCHES, 0, j) && !OLD_ONLY.masks[j].accepting;
    assert forall h: nat | h < j :: !Hits(OLD_ONLY, OLD_MATCHES, 0, h);
  }

  /** When a message goes on: the first mask it meets accepts it, or it meets none and is a rename
      away from an accepted name or unmatched messages are accepted; it is put off exactly when it
      is too young, and then nothing else about it is looked at. */
  lemma AcceptedIff(m: Message, o: Options, w: World, i: nat)
    ensures FilterOne(m, o, w, i).place == Incoming <==>
              && OfAge(m, o, w.now) && w.fieldsOk(i)
              && (|| MeetsFirst(o, w, i, true)
                  || (MeetsNone(o, w, i) && ((IsRename(m) && OldAccepted(o, w, i)) || o.acceptUnmatched)))
    ensures FilterOne(m, o, w, i).place == Failed <==>
              !TooOld(m, o, w.now) && !FileTooOld(m, o, w.now) && FileTooYoung(m, o, w.now)
    ensures FilterOne(m, o, w, i).place != Ok
  {
    MaskFromFirst(o, w, i, 0);
    var k := MaskFrom(o, w, i, 0);
    if k.Some? {
      assert MeetsFirst(o, w, i, o.masks[k.value].accepting);
      assert !MeetsNone(o, w, i);
    } else {
      assert MeetsNone(o, w, i);
    }
    forall b | MeetsFirst(o, w, i, b) ensures k.Some? && o.masks[k.value].accepting == b {
      var j: nat :| && j < |o.masks| && Hits(o, w, i, j) && o.masks[j].accepting == b
                    && forall h: nat | h < j :: !Hits(o, w, i, h);
      assert k.Some? && k.value == j;
    }
  }

  lemma NoneMet(o: Options, w: World, i: nat)
    ensures MeetsNone(o, w, i) <==> MaskFrom(o, w, i, 0).None?
  {
    MaskFromFirst(o, w, i, 0);
  }

  /** Of the messages that go on, exactly those that meet no mask and leave an accepted name are
      marked for the removal of the old name. */
  lemma UnlinkMarkedIff(m: Message, o: Options, w: World, i: nat)
    requires !m.renameUnlink && FilterOne(m, o, w, i).place == Incoming
    ensures FilterOne(m, o, w, i).m.renameUnlink <==>
              IsRename(m) && OldAccepted(o, w, i) && MeetsNone(o, w, i)
  {
    NoneMet(o, w, i);
    hide MeetsNone, MaskFrom, OldAccepted, IsRename, TooOld, FileTooOld, FileTooYoung;
  }

  lemma TakeIs(m: Message, w: World, i: nat)
    ensures Take(m, w, i) == if w.fieldsOk(i) then Entry(Incoming, m.(newDir := w.dirSet(i), newFile := w.fileSet(i)))
                             else Entry(Rejected, m.(report := 404))
  {
  }

  /** What the masks make of a message: it goes on with the fields that say where its file goes, is refused
      as unwanted, or is on no list; but for the mark that its old name is to be removed it is unchanged. */
  lemma MaskVerdict(m: Message, o: Options, w: World, i: nat)
    ensures var e := ByMask(m, o, w, i);
            && e.place in {Incoming, Rejected, Nowhere}
            && (e.place == Rejected ==> e.m == m.(report := 404, renameUnlink := e.m.renameUnlink))
            && (e.place == Incoming ==>
                  e.m == m.(newDir := w.dirSet(i), newFile := w.fileSet(i), renameUnlink := e.m.renameUnlink))
            && (e.place == Nowhere ==> e.m == m.(renameUnlink := true))
  {
    hide MaskFrom, OldAccepted, IsRename, Take;
    TakeIs(m, w, i);
    TakeIs(m.(renameUnlink := true), w, i);
  }

  /** What the filter says of a message and writes into it. Too old by its publication: 504. Else too old by
      its file: 410. Else, outside a poll, too young by its file: put off as it is. Every other refusal is
      404. A message that goes on says where its file goes, and one that is refused only why. */
  lemma FilterVerdict(m: Message, o: Options, w: World, i: nat)
    ensures var e := FilterOne(m, o, w, i);
            var stale := o.messageAgeMax != 0 && m.pubTime + o.messageAgeMax < w.now;
            var oldFile := m.mtime.Some? && o.fileAgeMax > 0 && m.mtime.value + o.fileAgeMax < w.now;
            var young := m.mtime.Some? && !o.poll && o.fileAgeMin > 0 && w.now < m.mtime.value + o.fileAgeMin;
            && (e.place == Rejected && e.m.report == 504 <==> stale)
            && (e.place == Rejected && e.m.report == 410 <==> !stale && oldFile)
            && (e.place == Failed <==> !stale && !oldFile && young)
            && (e.place == Rejected ==>
                  e.m == m.(report := e.m.report, renameUnlink := e.m.renameUnlink) && e.m.report in {504, 410, 404})
            && (e.place == Failed ==> e.m == m) && e.place != Ok
            && (e.place == Incoming ==>
                  e.m == m.(newDir := w.dirSet(i), newFile := w.fileSet(i), renameUnlink := e.m.renameUnlink))
            && (e.place == Nowhere ==> e.m == m.(renameUnlink := true))
  {
    hide ByMask;
    MaskVerdict(m, o, w, i);
  }

  // Landing on a list.

  /** An entry to be made, with the code reported; 0 reports nothing. */
  datatype Landing = Landing(place: Place, report: nat)

  function Landed(m: Message, l: Landing): Entry {
    Entry(l.place, m.(tries := m.tries + 1, report := if l.report == 0 then m.report else l.report))
  }

  /** An entry counts as one try, and reports its code; where it has none the last report stays. */
  lemma LandedIs(m: Message, l: Landing)
    ensures var e := Landed(m, l);
            && e.place == l.place && e.m.tries == m.tries + 1
            && (l.report != 0 ==> e.m.report == l.report) && (l.report == 0 ==> e.m.report == m.report)
            && e.m == m.(tries := e.m.tries, report := e.m.report)
  {
  }

  // File operations.

  /** What one attempt comes to: another attempt, or an end with perhaps an entry on a list, after
      which the message may still go on to the transfer. */
  datatype Attempted = Again | Stop(put: Option<Landing>, finished: bool)

  const DONE := Some(Landing(Ok, 201))
  const SKIPPED := Some(Landing(Rejected, 202))
  const FAILED := Some(Landing(Rejected, 500))

  function Create(m: Message, o: Options, w: World, i: nat, a: int): Attempted
    requires m.fileOp.Some?
  {
    var f := m.fileOp.value;
    if f.directory && !f.remove then
      if Mkdir !in o.events then Stop(SKIPPED, true)
      else if w.mkdir(i, a) then Stop(DONE, true)
      else Again
    else if (f.link || f.hlink) && !f.rename then
      if Link !in o.events then Stop(SKIPPED, true)
      else if w.link(i, a) then Stop(DONE, true)
      else if !f.hlink then Stop(FAILED, true)
      else Stop(None, false)
    else Again
  }

  function Attempt(m: Message, o: Options, w: World, i: nat, a: int): Attempted
    requires m.fileOp.Some?
  {
    var f := m.fileOp.value;
    if f.rename then
      if m.renameUnlink then Stop(DONE, false)
      else if w.rename(i, a) then Stop(DONE, f.link || f.directory)
      else if !f.link && !f.hlink && !f.directory then Stop(None, false)
      else Create(m, o, w, i, a)
    else if f.directory && f.remove then
      if Rmdir !in o.events then Stop(SKIPPED, true)
      else if w.removeOne(i, a) then Stop(DONE, true)
      else Create(m, o, w, i, a)
    else if f.remove then
      if Delete !in o.events then Stop(SKIPPED, true)
      else if w.removeOne(i, a) then Stop(DONE, true)
      else Stop(FAILED, true)
    else Create(m, o, w, i, a)
  }

  const GAVE_UP := Stop(Some(Landing(Failed, 0)), true)

  function FileOpFrom(m: Message, o: Options, w: World, i: nat, a: int): Attempted
    requires m.fileOp.Some?
    decreases o.attempts - a
  {
    if a > o.attempts then GAVE_UP
    else if Attempt(m, o, w, i, a) == Again then FileOpFrom(m, o, w, i, a + 1)
    else Attempt(m, o, w, i, a)
  }

  /** The first attempt, of those allowed, that does not ask for another one decides; after the last
      the message is put off. */
  ghost predicate FileOpIs(m: Message, o: Options, w: World, i: nat, r: Attempted)
    requires m.fileOp.Some?
  {
    || (r == GAVE_UP && forall a | 1 <= a <= o.attempts :: Attempt(m, o, w, i, a) == Again)
    || exists a :: && 1 <= a <= o.attempts && r != Again && r == Attempt(m, o, w, i, a)
                   && forall b | 1 <= b < a :: Attempt(m, o, w, i, b) == Again
  }

  lemma {:induction false} FileOpFirst(m: Message, o: Options, w: World, i: nat, a: int)
    requires m.fileOp.Some? && 1 <= a && forall b | 1 <= b < a :: Attempt(m, o, w, i, b) == Again
    ensures FileOpIs(m, o, w, i, FileOpFrom(m, o, w, i, a))
    decreases o.attempts - a
  {
    if a <= o.attempts && Attempt(m, o, w, i, a) == Again {
      FileOpFirst(m, o, w, i, a + 1);
    }
  }

  /** The messages that are put on the ok list and still go on to the transfer: those whose old
      name is to be removed, and those whose rename succeeded unless they name a link or a directory.
      A failed rename is tried again only for a hard link. */
  ghost predicate GoesOnAfterOk(m: Message, o: Options, w: World, i: nat) {
    && IsRename(m) && o.attempts >= 1
    && (|| m.renameUnlink
        || (&& !m.fileOp.value.link && !m.fileOp.value.directory
            && if m.fileOp.value.hlink then exists a :: 1 <= a <= o.attempts && w.rename(i, a) else w.rename(i, 1)))
  }

  lemma {:induction false} FirstRename(w: World, i: nat, n: int) returns (a: int)
    requires exists b :: 1 <= b <= n && w.rename(i, b)
    ensures 1 <= a <= n && w.rename(i, a) && forall b | 1 <= b < a :: !w.rename(i, b)
    decreases n
  {
    if b :| 1 <= b <= n - 1 && w.rename(i, b) {
      a := FirstRename(w, i, n - 1);
    } else {
      a := n;
    }
  }

  /** What a file operation can come to, and exactly when it comes to an entry and a transfer. */
  lemma FileOpEnds(m: Message, o: Options, w: World, i: nat, r: Attempted)
    requires m.fileOp.Some? && FileOpIs(m, o, w, i, r)
    ensures r.Stop? && (r.finished ==> r.put.Some?)
    ensures !r.finished && r.put.Some? <==> GoesOnAfterOk(m, o, w, i)
    ensures !r.finished ==> r.put == None || r.put == DONE
  {
    if r != GAVE_UP {
      var a :| 1 <= a <= o.attempts && r != Again && r == Attempt(m, o, w, i, a)
               && forall b | 1 <= b < a :: Attempt(m, o, w, i, b) == Again;
      assert a == 1 || Attempt(m, o, w, i, 1) == Again;
      assert !r.finished && r.put.Some? ==> GoesOnAfterOk(m, o, w, i);
    }
    if GoesOnAfterOk(m, o, w, i) {
      var a := 1;
      if !m.renameUnlink && m.fileOp.value.hlink {
        a := FirstRename(w, i, o.attempts);
      }
      assert Attempt(m, o, w, i, a) == Stop(DONE, false);
      assert forall b | 1 <= b < a :: Attempt(m, o, w, i, b) == Again;
    }
  }

  /** The operation ends the message with one entry, which reports `code`. */
  ghost predicate EndsWith(r: Attempted, place: Place, code: nat) {
    r.Stop? && r.finished && r.put == Some(Landing(place, code))
  }

  /** Removing a file: refused where deletions are configured out; otherwise done if and only if the first
      attempt removes it, and refused for good if not. It is never put off. */
  lemma RemoveOutcome(m: Message, o: Options, w: World, i: nat)
    requires m.fileOp.Some? && m.fileOp.value.remove && !m.fileOp.value.rename && !m.fileOp.value.directory
    requires o.attempts >= 1
    ensures var r := FileOpFrom(m, o, w, i, 1);
            && (EndsWith(r, Rejected, 202) <==> Delete !in o.events)
            && (EndsWith(r, Ok, 201) <==> Delete in o.events && w.removeOne(i, 1))
            && (EndsWith(r, Rejected, 500) <==> Delete in o.events && !w.removeOne(i, 1))
  {
    FileOpFirst(m, o, w, i, 1);
  }

  /** Making a link: refused where links are configured out; otherwise done if and only if the first
      attempt makes it. If not, a symbolic link is refused for good, and the target of a hard link is
      transferred as a file; neither is put off. */
  lemma LinkOutcome(m: Message, o: Options, w: World, i: nat)
    requires m.fileOp.Some? && (m.fileOp.value.link || m.fileOp.value.hlink) && o.attempts >= 1
    requires !m.fileOp.value.rename && !m.fileOp.value.remove && !m.fileOp.value.directory
    ensures var r := FileOpFrom(m, o, w, i, 1);
            && (EndsWith(r, Rejected, 202) <==> Link !in o.events)
            && (EndsWith(r, Ok, 201) <==> Link in o.events && w.link(i, 1))
            && (EndsWith(r, Rejected, 500) <==> Link in o.events && !w.link(i, 1) && !m.fileOp.value.hlink)
            && (r == Stop(None, false) <==> Link in o.events && !w.link(i, 1) && m.fileOp.value.hlink)
  {
    FileOpFirst(m, o, w, i, 1);
  }

  /** Renaming a plain file: one attempt, whose success is entered; in either case the message goes on to
      the transfer, which finds out whether the file is the one announced. */
  lemma RenameFileOutcome(m: Message, o: Options, w: World, i: nat)
    requires IsRename(m) && !m.renameUnlink && o.attempts >= 1
    requires !m.fileOp.value.link && !m.fileOp.value.hlink && !m.fileOp.value.directory
    ensures var r := FileOpFrom(m, o, w, i, 1);
            && r.Stop? && !r.finished
            && (r.put == Some(Landing(Ok, 201)) <==> w.rename(i, 1)) && (r.put == None <==> !w.rename(i, 1))
  {
    FileOpFirst(m, o, w, i, 1);
  }

  /** Renaming a hard link: it is tried as often as allowed; the first success is entered and the message
      goes on to the transfer, and without one it is put off. */
  lemma RenameHardLinkOutcome(m: Message, o: Options, w: World, i: nat)
    requires m.fileOp == Some(FileOp(true, false, true, false, false)) && !m.renameUnlink
    ensures FileOpFrom(m, o, w, i, 1)
         == if exists a :: 1 <= a <= o.attempts && w.rename(i, a) then Stop(Some(Landing(Ok, 201)), false)
            else Stop(Some(Landing(Failed, 0)), true)
  {
    FileOpFirst(m, o, w, i, 1);
    assert forall a :: Attempt(m, o, w, i, a) == if w.rename(i, a) then Stop(DONE, false) else Again;
  }

  /** A rename whose new name no mask meets removes the old name, which counts as done whether or not it
      was there, and the message goes on to the transfer. */
  lemma UnlinkOutcome(m: Message, o: Options, w: World, i: nat)
    requires IsRename(m) && m.renameUnlink && o.attempts >= 1
    ensures FileOpFrom(m, o, w, i, 1) == Stop(Some(Landing(Ok, 201)), false)
  {
    FileOpFirst(m, o, w, i, 1);
  }

  /** Removing a directory: done if and only if one of the attempts allowed removes it; otherwise put
      off. */
  lemma RmdirOutcome(m: Message, o: Options, w: World, i: nat)
    requires m.fileOp == Some(FileOp(false, false, false, true, true)) && o.attempts >= 1
    ensures FileOpFrom(m, o, w, i, 1)
         == if Rmdir !in o.events then Stop(SKIPPED, true)
            else if exists a :: 1 <= a <= o.attempts && w.removeOne(i, a) then Stop(DONE, true) else GAVE_UP
  {
    FileOpFirst(m, o, w, i, 1);
    assert forall a :: Attempt(m, o, w, i, a)
                    == if Rmdir !in o.events then Stop(SKIPPED, true)
                       else if w.removeOne(i, a) then Stop(DONE, true) else Again;
    assert Rmdir !in o.events ==> Attempt(m, o, w, i, 1) != Again;
  }

  /** Making a directory: done if and only if one of the attempts allowed makes it; otherwise put off. */
  lemma MkdirOutcome(m: Message, o: Options, w: World, i: nat)
    requires m.fileOp == Some(FileOp(false, false, false, true, false)) && o.attempts >= 1
    ensures FileOpFrom(m, o, w, i, 1)
         == if Mkdir !in o.events then Stop(SKIPPED, true)
            else if exists a :: 1 <= a <= o.attempts && w.mkdir(i, a) then Stop(DONE, true) else GAVE_UP
  {
    FileOpFirst(m, o, w, i, 1);
    assert forall a :: Attempt(m, o, w, i, a)
                    == if Mkdir !in o.events then Stop(SKIPPED, true)
                       else if w.mkdir(i, a) then Stop(DONE, true) else Again;
    assert Mkdir !in o.events ==> Attempt(m, o, w, i, 1) != Again;
  }

  /** Renaming a symbolic link: done if and only if one of the attempts allowed renames it; otherwise
      put off, and never made anew. */
  lemma RenameLinkOutcome(m: Message, o: Options, w: World, i: nat)
    requires m.fileOp == Some(FileOp(true, true, false, false, false)) && !m.renameUnlink
    ensures FileOpFrom(m, o, w, i, 1)
         == if exists a :: 1 <= a <= o.attempts && w.rename(i, a) then Stop(DONE, true) else GAVE_UP
  {
    FileOpFirst(m, o, w, i, 1);
    assert forall a :: Attempt(m, o, w, i, a) == if w.rename(i, a) then Stop(DONE, true) else Again;
  }

  /** Renaming a directory: done if and only if one of the attempts allowed renames it or, that
      failing, makes it; where making is configured out the first failed rename ends it. */
  lemma RenameDirectoryOutcome(m: Message, o: Options, w: World, i: nat)
    requires m.fileOp == Some(FileOp(true, false, false, true, false)) && !m.renameUnlink && o.attempts >= 1
    ensures FileOpFrom(m, o, w, i, 1)
         == if Mkdir !in o.events then (if w.rename(i, 1) then Stop(DONE, true) else Stop(SKIPPED, true))
            else if exists a :: 1 <= a <= o.attempts && (w.rename(i, a) || w.mkdir(i, a)) then Stop(DONE, true)
            else GAVE_UP
  {
    FileOpFirst(m, o, w, i, 1);
    assert forall a :: Attempt(m, o, w, i, a)
                    == if w.rename(i, a) then Stop(DONE, true)
                       else if Mkdir !in o.events then Stop(SKIPPED, true)
                       else if w.mkdir(i, a) then Stop(DONE, true) else Again;
    assert Mkdir !in o.events ==> Attempt(m, o, w, i, 1) != Again;
  }

  // Transfers.

  function FetchFrom(o: Options, w: World, i: nat, a: int): Landing
    decreases o.attempts - a
  {
    if a > o.attempts then Landing(Failed, 0)
    else match w.fetch(i, a)
      case Done => Landing(Ok, 201)
      case Gone => Landing(Rejected, 410)
      case NotYet => FetchFrom(o, w, i, a + 1)
  }

  /** A download is put off exactly when no attempt, of those allowed, comes to an end; otherwise
      the first that does decides. */
  lemma {:induction false} FetchFirst(o: Options, w: World, i: nat, a: int)
    requires 1 <= a && forall b | 1 <= b < a :: w.fetch(i, b) == NotYet
    ensures var l := FetchFrom(o, w, i, a);
            || (l.place == Failed && forall b | 1 <= b <= o.attempts :: w.fetch(i, b) == NotYet)
            || exists c :: && 1 <= c <= o.attempts && w.fetch(i, c) != NotYet
                           && (l.place == Ok <==> w.fetch(i, c) == Done)
                           && (l.place == Rejected <==> w.fetch(i, c) == Gone)
                           && forall b | 1 <= b < c :: w.fetch(i, b) == NotYet
    decreases o.attempts - a
  {
    if a <= o.attempts {
      if w.fetch(i, a) == NotYet {
        FetchFirst(o, w, i, a + 1);
      } else {
        assert 1 <= a <= o.attempts && w.fetch(i, a) != NotYet;
      }
    }
  }

  /** What precedes the transfer proper: an entry, or nothing. */
  function Before(m: Message, o: Options, w: World, i: nat): Option<Landing> {
    if o.fileSizeMax > 0 && m.size.Some? && m.size.value > o.fileSizeMax then Some(Landing(Rejected, 413))
    else if o.inflight == Interval && !m.inplace then Some(Landing(Rejected, 503))
    else if o.inflight != NoInflight && w.inflightThere(i) then Some(Landing(Failed, 0))
    else if w.fileThere(i) && !o.overwrite then Some(Landing(Rejected, 204))
    else if w.fileThere(i) && w.unwanted(i).Some? then Some(Landing(Rejected, w.unwanted(i).value))
    else if m.content && w.inline(i) then Some(Landing(Ok, 201))
    else None
  }

  function Transfer(m: Message, o: Options, w: World, i: nat): Landing {
    match Before(m, o, w, i)
    case Some(l) => l
    case None => FetchFrom(o, w, i, 1)
  }

  /** What precedes the file operation. */
  function Prepare(m: Message, o: Options, w: World, i: nat): Option<Landing> {
    if m.newname then Some(Landing(Ok, 0))
    else if !m.newDir then Some(Landing(Rejected, 422))
    else if !w.dirThere(i) && m.fileOp.Some? && m.fileOp.value.remove then Some(Landing(Rejected, 422))
    else if !w.dirThere(i) && !w.makeDirs(i) then Some(Landing(Rejected, 422))
    else if !w.enter(i) then Some(Landing(Failed, 0))
    else None
  }

  /** The entries that the download of `m` makes, in order. */
  function Landings(m: Message, o: Options, w: World, i: nat): seq<Landing> {
    match Prepare(m, o, w, i)
    case Some(l) => [l]
    case None =>
      if m.fileOp.None? then [Transfer(m, o, w, i)]
      else
        match FileOpFrom(m, o, w, i, 1)
        case Again => []
        case Stop(put, finished) =>
          (if put.Some? then [put.value] else []) + (if finished then [] else [Transfer(m, o, w, i)])
  }

  /** The checks before a transfer, in their order: a file too large is refused (413), and so is an
      interval setting for one not written in place (503); one that is on its way by another transfer is put
      off; one that is there and must not, or need not, be overwritten is refused (204, or as the comparison
      says); content that comes with the message is written (201). Anything else is fetched. */
  lemma TransferDecided(m: Message, o: Options, w: World, i: nat)
    ensures var fits := o.fileSizeMax <= 0 || m.size.None? || m.size.value <= o.fileSizeMax;
            var still := o.inflight == Interval ==> m.inplace;
            var free := o.inflight == NoInflight || !w.inflightThere(i);
            var l := Transfer(m, o, w, i);
            && (!fits ==> l == Landing(Rejected, 413))
            && (fits && !still ==> l == Landing(Rejected, 503))
            && (fits && still && !free ==> l == Landing(Failed, 0))
            && (fits && still && free && w.fileThere(i) && !o.overwrite ==> l == Landing(Rejected, 204))
            && (fits && still && free && w.fileThere(i) && o.overwrite && w.unwanted(i).Some? ==>
                  l == Landing(Rejected, w.unwanted(i).value))
            && (fits && still && free && (!w.fileThere(i) || (o.overwrite && w.unwanted(i).None?)) ==>
                  if m.content && w.inline(i) then l == Landing(Ok, 201) else l == FetchFrom(o, w, i, 1))
  {
  }

  /** A download reports 201, a file that is gone 410, and one put off nothing. */
  lemma {:induction false} FetchReports(o: Options, w: World, i: nat, a: int)
    ensures FetchFrom(o, w, i, a) in {Landing(Ok, 201), Landing(Rejected, 410), Landing(Failed, 0)}
    decreases o.attempts - a
  {
    if a <= o.attempts {
      FetchReports(o, w, i, a + 1);
    }
  }

  /** What a message comes to before its file is looked at: one that was written by somebody else is done
      without a report; it is refused (422) if it does not say where to go, or if its directory is not
      there and is either not needed, for a removal, or cannot be made; and put off if the directory cannot
      be entered. */
  lemma PrepareDecided(m: Message, o: Options, w: World, i: nat)
    ensures var p := Prepare(m, o, w, i);
            var removal := m.fileOp.Some? && m.fileOp.value.remove;
            var there := w.dirThere(i) || (!removal && w.makeDirs(i));
            && (p == Some(Landing(Ok, 0)) <==> m.newname)
            && (p == Some(Landing(Rejected, 422)) <==> !m.newname && (!m.newDir || !there))
            && (p == Some(Landing(Failed, 0)) <==> !m.newname && m.newDir && there && !w.enter(i))
            && (p == None <==> !m.newname && m.newDir && there && w.enter(i))
  {
  }

  /** The entries of a download in order: that of the preparation alone, if it makes one; else that of the
      file operation, if there is one and it makes one, and then that of the transfer, unless the operation
      was all there was to do. */
  lemma EntriesInOrder(m: Message, o: Options, w: World, i: nat)
    ensures var ls := Landings(m, o, w, i);
            && (Prepare(m, o, w, i).Some? ==> ls == [Prepare(m, o, w, i).value])
            && (Prepare(m, o, w, i).None? && m.fileOp.None? ==> ls == [Transfer(m, o, w, i)])
            && (Prepare(m, o, w, i).None? && m.fileOp.Some? && FileOpFrom(m, o, w, i, 1).Stop? ==>
                  var r := FileOpFrom(m, o, w, i, 1);
                  && (r.finished && r.put.Some? ==> ls == [r.put.value])
                  && (!r.finished && r.put.Some? ==> ls == [r.put.value, Transfer(m, o, w, i)])
                  && (!r.finished && r.put.None? ==> ls == [Transfer(m, o, w, i)]))
  {
  }

  ghost predicate Doubles(m: Message, o: Options, w: World, i: nat) {
    Prepare(m, o, w, i).None? && GoesOnAfterOk(m, o, w, i)
  }

  ghost predicate IsEnd(l: Landing) {
    l.place == Ok || l.place == Rejected || l.place == Failed
  }

  lemma {:induction false} FetchEnds(o: Options, w: World, i: nat, a: int)
    ensures IsEnd(FetchFrom(o, w, i, a))
    decreases o.attempts - a
  {
    if a <= o.attempts {
      FetchEnds(o, w, i, a + 1);
    }
  }

  /** Every message that is downloaded lands on exactly one list, or, if and only if its rename was
      done and it went on to the transfer, on the ok list and then on one more. */
  lemma LandsOnce(m: Message, o: Options, w: World, i: nat)
    ensures |Landings(m, o, w, i)| == if Doubles(m, o, w, i) then 2 else 1
    ensures |Landings(m, o, w, i)| == 2 ==> Landings(m, o, w, i)[0] == Landing(Ok, 201)
    ensures forall l | l in Landings(m, o, w, i) :: IsEnd(l)
  {
    FetchEnds(o, w, i, 1);
    if Prepare(m, o, w, i).None? && m.fileOp.Some? {
      FileOpFirst(m, o, w, i, 1);
      FileOpEnds(m, o, w, i, FileOpFrom(m, o, w, i, 1));
    }
  }

  // Sending.

  /** Configured out: operations on files that the receiving end is not to see. */
  predicate Skipped(m: Message, o: Options) {
    m.fileOp.Some? &&
    var f := m.fileOp.value;
    || (f.directory && f.remove && Rmdir !in o.events)
    || (f.remove && Delete !in o.events)
    || (f.directory && Mkdir !in o.events)
    || (f.hlink && Link !in o.events)
    || (f.link && Link !in o.events)
  }

  function BeforeSend(m: Message, o: Options): Option<Landing> {
    if !m.newDir then Some(Landing(Rejected, 422))
    else if !m.newFile then Some(Landing(Rejected, 422))
    else if m.size.Some? && o.fileSizeMax > 0 && m.size.value > o.fileSizeMax then Some(Landing(Rejected, 413))
    else if Skipped(m, o) then Some(Landing(Rejected, 202))
    else None
  }

  function SentTo(answer: int): Place {
    if answer > 0 then Ok else if answer < 0 then Rejected else Failed
  }

  /** The number of sends, counting from attempt `a`: none follows an answer other than 0. */
  function SendsFrom(o: Options, w: World, i: nat, a: int): (n: int)
    requires a <= o.attempts
    ensures a <= n <= o.attempts
    decreases o.attempts - a
  {
    if a == o.attempts || w.send(i, a) != 0 then a else SendsFrom(o, w, i, a + 1)
  }

  function Sending(m: Message, o: Options, w: World, i: nat): Landing
    requires o.attempts >= 1
  {
    match BeforeSend(m, o)
    case Some(l) => l
    case None => Landing(SentTo(w.send(i, SendsFrom(o, w, i, 1))), 0)
  }

  /** The operations that have to be configured in for a message to be sent on: the removal of a
      directory needs those for removing directories, for deleting files and for making directories. */
  function EventsOf(f: FileOp): set<Event> {
    (if f.remove && f.directory then {Rmdir} else {}) + (if f.remove then {Delete} else {})
    + (if f.directory then {Mkdir} else {}) + (if f.link || f.hlink then {Link} else {})
  }

  /** What is refused before it is sent, and why: without the fields that say where it goes, above the
      size allowed, or for an operation that is configured out, in this order. */
  lemma RefusedUnsent(m: Message, o: Options)
    ensures var placed := m.newDir && m.newFile;
            var fits := o.fileSizeMax <= 0 || m.size.None? || m.size.value <= o.fileSizeMax;
            var allowed := m.fileOp.Some? ==> EventsOf(m.fileOp.value) <= o.events;
            && (BeforeSend(m, o) == None <==> placed && fits && allowed)
            && (BeforeSend(m, o) == Some(Landing(Rejected, 422)) <==> !placed)
            && (BeforeSend(m, o) == Some(Landing(Rejected, 413)) <==> placed && !fits)
            && (BeforeSend(m, o) == Some(Landing(Rejected, 202)) <==> placed && fits && !allowed)
  {
    if m.fileOp.Some? {
      var f := m.fileOp.value;
      assert EventsOf(f) <= o.events <==>
             && (f.remove && f.directory ==> Rmdir in o.events) && (f.remove ==> Delete in o.events)
             && (f.directory ==> Mkdir in o.events) && (f.link || f.hlink ==> Link in o.events) by {
        assert forall e :: e in EventsOf(f) <==>
                 || (e == Rmdir && f.remove && f.directory) || (e == Delete && f.remove)
                 || (e == Mkdir && f.directory) || (e == Link && (f.link || f.hlink));
      }
    }
  }

  /** The first send answered other than 0 decides: above 0 the message is done, below it is refused; and
      with no such answer among the sends allowed it is put off. */
  lemma SendingIs(m: Message, o: Options, w: World, i: nat)
    requires o.attempts >= 1 && BeforeSend(m, o) == None
    ensures var l := Sending(m, o, w, i);
            && (l.place == Ok <==>
                  exists a :: 1 <= a <= o.attempts && w.send(i, a) > 0 && forall b | 1 <= b < a :: w.send(i, b) == 0)
            && (l.place == Rejected <==>
                  exists a :: 1 <= a <= o.attempts && w.send(i, a) < 0 && forall b | 1 <= b < a :: w.send(i, b) == 0)
            && (l.place == Failed <==> forall a | 1 <= a <= o.attempts :: w.send(i, a) == 0)
            && l.report == 0
  {
    SendFirst(o, w, i, 1);
    var n := SendsFrom(o, w, i, 1);
    forall a | 1 <= a <= o.attempts && w.send(i, a) != 0 && forall b | 1 <= b < a :: w.send(i, b) == 0
      ensures a == n
    {
      assert n <= a;
    }
  }

  /** A message is put off exactly when every send, of those allowed, was answered 0; otherwise the
      first other answer decides, and it is the last send. */
  lemma {:induction false} SendFirst(o: Options, w: World, i: nat, a: int)
    requires 1 <= a <= o.attempts && forall b | 1 <= b < a :: w.send(i, b) == 0
    ensures var n := SendsFrom(o, w, i, a);
            && (forall b | 1 <= b < n :: w.send(i, b) == 0)
            && (SentTo(w.send(i, n)) == Failed <==> forall b | 1 <= b <= o.attempts :: w.send(i, b) == 0)
    decreases o.attempts - a
  {
    if a < o.attempts && w.send(i, a) == 0 {
      SendFirst(o, w, i, a + 1);
    }
  }
}
