/** The plugin that puts block files together after a transfer: one pass over the messages, each
    block copied into its whole file under the manifest kept beside it. */
module BlockReassembly {
  import opened Sequences
  import opened Blocks
  import opened Reassembly
  import opened BlockManifest

  /** What a message says of a file that is one block of another. */
  datatype Part = Part(root: string, wellNamed: bool, sizes: Sizes, number: nat)

  /** `missing` is the number of blocks reported as still missing, if that was reported. */
  datatype Message = Message(id: nat, file: string, size: nat, part: Option<Part>, missing: Option<nat>)

  datatype State = State(files: map<string, seq<byte>>, stored: map<string, Stored>,
                         ok: seq<Message>, rejected: seq<Message>)

  predicate IsBlock(m: Message) {
    m.part.Some? && m.part.value.wellNamed
  }

  function BlockIn(files: map<string, seq<byte>>, m: Message): Block
    requires IsBlock(m) && m.file in files
  {
    Block(m.part.value.sizes, m.part.value.number, files[m.file])
  }

  ghost predicate Present(files: map<string, seq<byte>>, m: Message) {
    IsBlock(m) ==> m.file in files && Arrivable(BlockIn(files, m))
  }

  ghost predicate Apart(m: Message, other: Message) {
    IsBlock(m) && IsBlock(other) ==> m.file != other.part.value.root
  }

  /** The block files have arrived, under names of their own. */
  ghost predicate Ready(files: map<string, seq<byte>>, ms: seq<Message>) {
    && (forall i | 0 <= i < |ms| :: Present(files, ms[i]))
    && (forall i, j | 0 <= i < |ms| && 0 <= j < |ms| :: Apart(ms[i], ms[j]))
    && (forall i, j | 0 <= i < j < |ms| && IsBlock(ms[i]) && IsBlock(ms[j]) :: ms[i].file != ms[j].file)
  }

  /** The message sent on when the whole file is there. */
  function Completed(m: Message, size: nat): Message
    requires IsBlock(m)
  {
    Message(m.id, m.part.value.root, size, None, m.missing)
  }

  /** The message that is not sent on, with the report that blocks are missing. */
  function Reported(m: Message, left: nat): Message {
    m.(missing := Some(left))
  }

  /** What handling a message makes of it: the same object is changed, wherever it is listed. */
  ghost function Became(s: State, m: Message, o: Options): Message
    requires Present(s.files, m)
  {
    if !IsBlock(m) then m
    else
      match OutcomeOf(RootIn(s.files, s.stored, m.part.value.root), BlockIn(s.files, m))
      case Waiting(left) => Reported(m, left)
      case Complete(size) => Completed(m, size)
  }

  ghost function PutRoot(stored: map<string, Stored>, p: string, s: Option<Stored>): map<string, Stored> {
    if s.Some? then stored[p := s.value] else stored - {p}
  }

  /** The effect of one message on the directory and the work list. */
  ghost function Handle(s: State, m: Message, o: Options): State
    requires Present(s.files, m)
  {
    if !IsBlock(m) then s.(ok := s.ok + [m])
    else
      var p := m.part.value.root;
      var b := BlockIn(s.files, m);
      var r := RootIn(s.files, s.stored, p);
      var r' := Receive(r, b, o);
      var s' := s.(files := s.files[p := Content(r')] - {m.file}, stored := PutRoot(s.stored, p, r'.stored));
      match OutcomeOf(r, b)
      case Waiting(left) => s'.(rejected := s.rejected + [Reported(m, left)])
      case Complete(size) => s'.(ok := s.ok + [Completed(m, size)])
  }

  ghost predicate Untouched(ms: seq<Message>, p: string) {
    forall i | 0 <= i < |ms| && IsBlock(ms[i]) :: p != ms[i].file && p != ms[i].part.value.root
  }

  ghost function HandleAll(s: State, ms: seq<Message>, o: Options): (s': State)
    requires Ready(s.files, ms)
    ensures forall p | p in s.files && Untouched(ms, p) :: p in s'.files && s'.files[p] == s.files[p]
    decreases |ms|
  {
    if ms == [] then s
    else
      var n := |ms| - 1;
      ReadyTake(s.files, ms, n);
      var before := HandleAll(s, ms[..n], o);
      Handle(before, ms[n], o)
  }

  /** What the messages handled have become. */
  ghost function AllBecame(s: State, ms: seq<Message>, o: Options): (r: seq<Message>)
    requires Ready(s.files, ms)
    ensures |r| == |ms|
    decreases |ms|
  {
    if ms == [] then []
    else
      var n := |ms| - 1;
      ReadyTake(s.files, ms, n);
      AllBecame(s, ms[..n], o) + [Became(HandleAll(s, ms[..n], o), ms[n], o)]
  }

  lemma ReadyTake(files: map<string, seq<byte>>, ms: seq<Message>, i: nat)
    requires Ready(files, ms) && i <= |ms|
    ensures Ready(files, ms[..i])
    ensures i < |ms| ==> Present(files, ms[i])
    ensures i < |ms| && IsBlock(ms[i]) ==> Untouched(ms[..i], ms[i].file)
  {
    if i < |ms| && IsBlock(ms[i]) {
      forall j | 0 <= j < i && IsBlock(ms[j])
        ensures ms[i].file != ms[j].file && ms[i].file != ms[j].part.value.root
      {
        assert Apart(ms[i], ms[j]);
      }
    }
  }

  // How far a pass gets.

  /** Every block file that is there is as its message says, and none bears the name of a whole file. */
  ghost predicate Usable(files: map<string, seq<byte>>, ms: seq<Message>) {
    && (forall i | 0 <= i < |ms| && IsBlock(ms[i]) && ms[i].file in files :: Arrivable(BlockIn(files, ms[i])))
    && (forall i, j | 0 <= i < |ms| && 0 <= j < |ms| :: Apart(ms[i], ms[j]))
  }

  /** The file of message `i` is there when its turn comes: it was there, and no earlier message took
      it away. */
  ghost predicate Available(files: map<string, seq<byte>>, ms: seq<Message>, i: nat)
    requires i < |ms|
  {
    IsBlock(ms[i]) ==>
      && ms[i].file in files
      && forall j | 0 <= j < i && IsBlock(ms[j]) :: ms[j].file != ms[i].file
  }

  /** The number of messages a pass deals with: those before the first whose file is missing. */
  ghost function Reached(files: map<string, seq<byte>>, ms: seq<Message>): (k: nat)
    ensures k <= |ms|
  {
    if ms == [] then 0
    else
      var n := |ms| - 1;
      var k := Reached(files, ms[..n]);
      if k == n && Available(files, ms, n) then |ms| else k
  }

  lemma {:induction false} ReachedIs(files: map<string, seq<byte>>, ms: seq<Message>)
    ensures var k := Reached(files, ms);
            && (forall i | 0 <= i < k :: Available(files, ms, i))
            && (k < |ms| ==> !Available(files, ms, k))
    decreases |ms|
  {
    if ms != [] {
      var n := |ms| - 1;
      ReachedIs(files, ms[..n]);
      forall i | 0 <= i < n ensures Available(files, ms[..n], i) == Available(files, ms, i) {
        AvailableTake(files, ms, n, i);
      }
      hide Available;
    }
  }

  lemma AvailableTake(files: map<string, seq<byte>>, ms: seq<Message>, n: nat, i: nat)
    requires i < n <= |ms|
    ensures Available(files, ms[..n], i) == Available(files, ms, i)
  {
    assert forall j | 0 <= j < n :: ms[..n][j] == ms[j];
  }

  lemma ReachedReady(files: map<string, seq<byte>>, ms: seq<Message>)
    requires Usable(files, ms)
    ensures Ready(files, ms[..Reached(files, ms)])
  {
    ReachedIs(files, ms);
    var k := Reached(files, ms);
    forall i | 0 <= i < k ensures Present(files, ms[..k][i]) {
      assert Available(files, ms, i);
    }
    forall i, j | 0 <= i < j < k && IsBlock(ms[i]) && IsBlock(ms[j]) ensures ms[i].file != ms[j].file {
      assert Available(files, ms, j);
    }
    forall i, j | 0 <= i < k && 0 <= j < k ensures Apart(ms[..k][i], ms[..k][j]) {
      assert Apart(ms[i], ms[j]);
    }
  }

  /** A pass deals with all its messages if and only if every block file it names is there and no two
      of its messages name the same one. */
  lemma CompletesIff(files: map<string, seq<byte>>, ms: seq<Message>)
    ensures Reached(files, ms) == |ms| <==>
              && (forall i | 0 <= i < |ms| && IsBlock(ms[i]) :: ms[i].file in files)
              && (forall i, j | 0 <= i < j < |ms| && IsBlock(ms[i]) && IsBlock(ms[j]) :: ms[i].file != ms[j].file)
  {
    ReachedIs(files, ms);
    if Reached(files, ms) == |ms| {
      forall i | 0 <= i < |ms| && IsBlock(ms[i]) ensures ms[i].file in files {
        assert Available(files, ms, i);
      }
      forall i, j | 0 <= i < j < |ms| && IsBlock(ms[i]) && IsBlock(ms[j]) ensures ms[i].file != ms[j].file {
        assert Available(files, ms, j);
      }
    }
  }

  /** What a pass leaves: the messages it dealt with are handled; when it stops early the ok list is
      not replaced, but the messages it dealt with are changed where they stand. */
  ghost function PassOver(s: State, ms: seq<Message>, o: Options): State
    requires Usable(s.files, ms)
  {
    ReachedReady(s.files, ms);
    var k := Reached(s.files, ms);
    var t := HandleAll(s.(ok := []), ms[..k], o);
    if k == |ms| then t else t.(ok := AllBecame(s.(ok := []), ms[..k], o) + ms[k..])
  }

  /** Which block files a pass has left so far. */
  lemma {:induction false} FilesLeft(s: State, ms: seq<Message>, o: Options, p: string)
    requires Ready(s.files, ms) && forall i | 0 <= i < |ms| && IsBlock(ms[i]) :: p != ms[i].part.value.root
    ensures p in HandleAll(s, ms, o).files <==>
              p in s.files && forall i | 0 <= i < |ms| && IsBlock(ms[i]) :: ms[i].file != p
    decreases |ms|
  {
    hide Handle, Present, Apart, Untouched;
    if ms != [] {
      var n := |ms| - 1;
      HandleTake(s, ms, n, o);
      FilesLeft(s, ms[..n], o, p);
      HandledFile(HandleAll(s, ms[..n], o), ms[n], o, p);
      assert ms[..|ms|] == ms;
      assert forall j | 0 <= j < n :: ms[..n][j] == ms[j];
    }
  }

  lemma HandledFile(s: State, m: Message, o: Options, p: string)
    requires Present(s.files, m) && (IsBlock(m) ==> p != m.part.value.root)
    ensures p in Handle(s, m, o).files <==> p in s.files && (IsBlock(m) ==> p != m.file)
  {
    hide Receive, OutcomeOf;
  }

  /** A message finds its file if and only if it is available. */
  lemma FindsFile(s: State, ms: seq<Message>, o: Options, i: nat)
    requires Usable(s.files, ms) && i < |ms| && IsBlock(ms[i]) && Ready(s.files, ms[..i])
    ensures ms[i].file in HandleAll(s, ms[..i], o).files <==> Available(s.files, ms, i)
  {
    forall j | 0 <= j < i && IsBlock(ms[j]) ensures ms[i].file != ms[j].part.value.root {
      assert Apart(ms[i], ms[j]);
    }
    FilesLeft(s, ms[..i], o, ms[i].file);
    assert forall j | 0 <= j < i :: ms[..i][j] == ms[j];
    hide HandleAll;
  }

  // The plugin.

  ghost function StoredOf(held: Option<Held>): Option<Stored> {
    if held.Some? then Some(held.value.stored) else None
  }

  /** The record of what has come, with the block at hand added and no longer awaited. */
  ghost function HeldAfter(held: Option<Held>, b: Block): Stored
    requires b.number in b.sizes
  {
    var manifest := if held.Some? then held.value.stored.manifest else map[];
    var waiting := if held.Some? && held.value.stored.waiting.Some?
                   then held.value.stored.waiting.value else b.sizes;
    Stored(manifest[b.number := b.sizes[b.number]], Some(waiting - {b.number}))
  }

  /** The directory before and after one block. */
  ghost predicate BlockHandled(files: map<string, seq<byte>>, stored: map<string, Stored>, m: Message, o: Options,
      files': map<string, seq<byte>>, stored': map<string, Stored>)
    requires IsBlock(m) && Present(files, m)
  {
    var p := m.part.value.root;
    var r' := Receive(RootIn(files, stored, p), BlockIn(files, m), o);
    files' == files[p := Content(r')] - {m.file} && stored' == PutRoot(stored, p, r'.stored)
  }

  lemma SameContent(r: Root, r': Root, b: Block, bufSize: nat)
    requires Arrivable(b) && Content(r) == Content(r') && r.stored == r'.stored
    ensures NewContent(r, b, bufSize) == NewContent(r', b, bufSize)
  {
  }

  lemma HandledBy(files: map<string, seq<byte>>, stored: map<string, Stored>, m: Message, o: Options,
      held: Option<Held>, f: seq<byte>, s: Stored)
    requires IsBlock(m) && Present(files, m)
    requires StoredOf(held) == RootIn(files, stored, m.part.value.root).stored
    requires f == NewContent(RootIn(files, stored, m.part.value.root), BlockIn(files, m), o.bufSize)
    requires s == HeldAfter(held, BlockIn(files, m))
    ensures BlockHandled(files, stored, m, o, files[m.part.value.root := f] - {m.file},
                         PutRoot(stored, m.part.value.root, AfterBlock(s.manifest, s.waiting.value, o)))
    ensures OutcomeOf(RootIn(files, stored, m.part.value.root), BlockIn(files, m))
         == if s.waiting.value != map[] then Waiting(|s.waiting.value|) else Complete(Total(m.part.value.sizes))
  {
    hide NewContent, Total, PutRoot;
  }

  class Worklist {
    var ok: seq<Message>
    var rejected: seq<Message>
  }

  class BlockReassembly {
    const dir: Directory
    const o: Options
    const inflight: bool

    constructor (dir: Directory, o: Options, inflight: bool)
      ensures this.dir == dir && this.o == o && this.inflight == inflight
    {
      this.dir := dir;
      this.o := o;
      this.inflight := inflight;
    }

    /** The copy loop: whole buffers are read until the size of the block has been passed. */
    method CopyBlock(part: seq<byte>, byteCount: nat, f: seq<byte>, at: nat) returns (r: seq<byte>)
      requires |part| >= byteCount
      ensures r == WriteAt(f, at, if byteCount == 0 then [] else part[..Min(|part|, Max(o.bufSize, byteCount))])
    {
      r := f;
      var sz: int := Max(o.bufSize, byteCount);
      var position, seek := 0, at;
      var transferred := 0;
      while transferred < byteCount
        invariant 0 <= transferred <= |part| && position == transferred
        invariant transferred == 0 ==> r == f && seek == at && sz == Max(o.bufSize, byteCount)
        invariant transferred > 0 ==> transferred >= byteCount > 0
        invariant transferred > 0 ==> r == WriteAt(f, at, part[..Min(|part|, Max(o.bufSize, byteCount))])
        decreases byteCount - transferred
      {
        var b := part[position..Min(|part|, position + sz)];
        r := WriteAt(r, seek, b);
        seek := seek + |b|;
        position := position + |b|;
        transferred := transferred + |b|;
        var bytesLeft := byteCount - transferred;
        sz := if o.bufSize > bytesLeft then o.bufSize else bytesLeft;
      }
    }

    /** The new content of the whole file: cut if it was longer, and written at the offset of the
        block. */
    method Assemble(file: seq<byte>, held: Option<Held>, b: Block) returns (f: seq<byte>, newSize: nat)
      requires Arrivable(b)
      ensures newSize == Total(b.sizes)
      ensures f == NewContent(Root(Some(file), StoredOf(held)), b, o.bufSize)
    {
      newSize := SumSizes(b.sizes);
      var oldSize := |file|;
      if held.Some? {
        oldSize := SumSizes(held.value.stored.manifest);
      }
      f := file;
      if newSize < oldSize {
        f := Truncate(f, newSize);
      }
      var offset := SeekOffset(b.sizes, b.number);
      f := CopyBlock(b.data, b.sizes[b.number], f, offset);
    }

    /** One block: the manifest is read before the file is written, and written after. */
    method ReceiveBlock(m: Message) returns (v: Outcome)
      requires IsBlock(m) && dir.Valid() && Present(dir.files, m)
      modifies dir`files, dir`manifests, dir`stored
      ensures dir.Valid()
      ensures v == OutcomeOf(old(dir.RootAt(m.part.value.root)), old(BlockIn(dir.files, m)))
      ensures BlockHandled(old(dir.files), old(dir.stored), m, o, dir.files, dir.stored)
    {
      var p := m.part.value.root;
      var b := BlockIn(dir.files, m);
      assert b.number in b.sizes;
      hide Total, Save, TextAt, NewContent, Arrivable, PutRoot, BlockHandled, OutcomeOf, AfterBlock;
      var held := ReadManifest(p);
      ghost var r := RootIn(old(dir.files), old(dir.stored), p);
      var f, newSize := Assemble(if p in dir.files then dir.files[p] else [], held, b);
      SameContent(r, Root(Some(Content(r)), r.stored), b, o.bufSize);
      dir.files := dir.files[p := f] - {m.file};
      var s := UpdateHeld(held, b);
      UpdateManifest(p, s);
      var waiting := s.stored.waiting.value;
      v := if waiting != map[] then Waiting(|waiting|) else Complete(newSize);
      HandledBy(old(dir.files), old(dir.stored), m, o, held, f, s.stored);
    }

    /** The manifest is kept while blocks are awaited, and after that unless it is to go. */
    method UpdateManifest(p: string, s: Held)
      requires dir.Valid() && s.stored.waiting.Some?
      modifies dir`manifests, dir`stored
      ensures dir.Valid()
      ensures dir.stored == PutRoot(old(dir.stored), p, AfterBlock(s.stored.manifest, s.stored.waiting.value, o))
    {
      if s.stored.waiting.value != map[] {
        WriteManifest(p, s);
      } else if o.deleteManifest {
        dir.manifests := dir.manifests - {p};
        dir.stored := dir.stored - {p};
      } else {
        WriteManifest(p, s.(stored := Stored(s.stored.manifest, None)));
      }
    }

    method ReadManifest(p: string) returns (held: Option<Held>)
      requires dir.Valid()
      modifies dir`manifests, dir`stored
      ensures dir.Valid() && dir.stored == old(dir.stored) && p in dir.manifests
      ensures held == if p in dir.stored then Some(Held(dir.stored[p], None)) else None
    {
      var rfm := new BlockManifest(dir, p);
      held := rfm.Get();
      rfm.Persist();
    }

    method WriteManifest(p: string, s: Held)
      requires dir.Valid()
      modifies dir`manifests, dir`stored
      ensures dir.Valid() && dir.stored == old(dir.stored)[p := s.stored]
    {
      var rfm := new BlockManifest(dir, p);
      rfm.Set(s);
      rfm.Persist();
    }

    method UpdateHeld(held: Option<Held>, b: Block) returns (s: Held)
      requires b.number in b.sizes
      ensures s.stored == HeldAfter(held, b)
    {
      var size := b.sizes[b.number];
      if held.Some? {
        s := held.value;
        if s.stored.waiting.None? {
          s := s.(stored := s.stored.(waiting := Some(b.sizes)));
        }
        s := s.(stored := s.stored.(manifest := s.stored.manifest[b.number := size]));
      } else {
        s := Held(Stored(map[b.number := size], Some(b.sizes)), Some(b.number));
      }
      if b.number in s.stored.waiting.value {
        s := s.(stored := s.stored.(waiting := Some(s.stored.waiting.value - {b.number})));
      } else {
        assert s.stored.waiting.value - {b.number} == s.stored.waiting.value;
      }
    }

    method HandleOne(m: Message, newOk: seq<Message>, worklist: Worklist) returns (r: seq<Message>, m': Message)
      requires dir.Valid() && Present(dir.files, m)
      modifies worklist`rejected, dir`files, dir`manifests, dir`stored
      ensures dir.Valid()
      ensures State(dir.files, dir.stored, r, worklist.rejected)
           == Handle(old(State(dir.files, dir.stored, newOk, worklist.rejected)), m, o)
      ensures m' == Became(old(State(dir.files, dir.stored, newOk, worklist.rejected)), m, o)
    {
      hide Total, Save, TextAt, NewContent, Arrivable, NewStored, StillWaiting;
      r, m' := newOk, m;
      if !m.part.Some? {
        r := r + [m];
      } else if !m.part.value.wellNamed {
        r := r + [m];
      } else {
        var v := ReceiveBlock(m);
        match v {
          case Waiting(left) =>
            m' := Reported(m, left);
            worklist.rejected := worklist.rejected + [m'];
          case Complete(size) =>
            m' := Completed(m, size);
            r := r + [m'];
        }
      }
    }

    /** The pass over the messages. Nothing is done when files are written under another name first.
        A block file that is missing ends it in the middle: the lock of its whole file stays held, what
        was handled stays handled, and the ok list is not replaced: the messages on it that were handled
        are found as they have become. */
    method AfterWork(worklist: Worklist) returns (stopped: Option<nat>)
      requires dir.Valid() && Usable(dir.files, worklist.ok)
      modifies worklist, dir
      ensures dir.Valid()
      ensures State(dir.files, dir.stored, worklist.ok, worklist.rejected)
           == if inflight then old(State(dir.files, dir.stored, worklist.ok, worklist.rejected))
              else PassOver(old(State(dir.files, dir.stored, worklist.ok, worklist.rejected)), old(worklist.ok), o)
      ensures stopped == if inflight || Reached(old(dir.files), old(worklist.ok)) == |old(worklist.ok)| then None
                         else Some(Reached(old(dir.files), old(worklist.ok)))
      ensures dir.locks == old(dir.locks) + LockLeft(old(worklist.ok), stopped)
    {
      hide Handle, Save, TextAt, Present, Available, Reached, HandleAll, AllBecame, Became, PassOver, Usable, Ready;
      stopped := None;
      if inflight {
        return;
      }
      var newOk: seq<Message> := [];
      var ms := worklist.ok;
      ghost var start := State(dir.files, dir.stored, [], worklist.rejected);
      var i := 0;
      NoneHandled(start, ms, o);
      while i < |ms|
        invariant 0 <= i <= |ms| && dir.Valid() && dir.locks == old(dir.locks)
        invariant Ready(start.files, ms[..i]) && forall j | 0 <= j < i :: Available(start.files, ms, j)
        invariant State(dir.files, dir.stored, newOk, worklist.rejected) == HandleAll(start, ms[..i], o)
        invariant worklist.ok == AllBecame(start, ms[..i], o) + ms[i..]
      {
        NextMessage(start, ms, i, o);
        if IsBlock(ms[i]) && ms[i].file !in dir.files {
          StopsAt(start.files, ms, i);
          PassIs(start.(ok := ms), ms, o);
          dir.locks := dir.locks + {ms[i].part.value.root};
          return Some(i);
        }
        var m';
        newOk, m' := HandleOne(ms[i], newOk, worklist);
        BecameNext(start, ms, i, o, worklist.ok);
        worklist.ok := worklist.ok[i := m'];
        i := i + 1;
      }
      StopsAt(start.files, ms, i);
      PassIs(start.(ok := ms), ms, o);
      worklist.ok := newOk;
    }
  }

  lemma NoneHandled(s: State, ms: seq<Message>, o: Options)
    ensures Ready(s.files, ms[..0]) && HandleAll(s, ms[..0], o) == s && AllBecame(s, ms[..0], o) + ms[0..] == ms
  {
    assert ms[..0] == [];
  }

  lemma PassIs(s: State, ms: seq<Message>, o: Options)
    requires Usable(s.files, ms)
    ensures var k := Reached(s.files, ms);
            && Ready(s.files, ms[..k])
            && PassOver(s, ms, o)
            == var t := HandleAll(s.(ok := []), ms[..k], o);
               if k == |ms| then t else t.(ok := AllBecame(s.(ok := []), ms[..k], o) + ms[k..])
  {
    hide Usable, Ready, HandleAll, AllBecame, Reached;
    ReachedReady(s.files, ms);
  }

  lemma BecameSnoc(s: State, ms: seq<Message>, i: nat, o: Options)
    requires i < |ms| && Ready(s.files, ms[..i]) && Ready(s.files, ms[..i + 1])
    ensures Present(HandleAll(s, ms[..i], o).files, ms[i])
    ensures AllBecame(s, ms[..i + 1], o) == AllBecame(s, ms[..i], o) + [Became(HandleAll(s, ms[..i], o), ms[i], o)]
  {
    HandleTake(s, ms[..i + 1], i, o);
    assert ms[..i + 1][..i] == ms[..i];
    hide HandleAll, Became, Ready, Present;
  }

  lemma ReplaceNext<T>(a: seq<T>, ms: seq<T>, i: nat, x: T)
    requires i < |ms| && |a| == i
    ensures (a + ms[i..])[i := x] == (a + [x]) + ms[i + 1..]
  {
  }

  lemma BecameNext(s: State, ms: seq<Message>, i: nat, o: Options, ok: seq<Message>)
    requires i < |ms| && Ready(s.files, ms[..i]) && Ready(s.files, ms[..i + 1])
    requires ok == AllBecame(s, ms[..i], o) + ms[i..]
    ensures Present(HandleAll(s, ms[..i], o).files, ms[i]) && |ok| == |ms|
    ensures ok[i := Became(HandleAll(s, ms[..i], o), ms[i], o)] == AllBecame(s, ms[..i + 1], o) + ms[i + 1..]
  {
    hide HandleAll, Became, AllBecame, Ready, Present;
    BecameSnoc(s, ms, i, o);
    ReplaceNext(AllBecame(s, ms[..i], o), ms, i, Became(HandleAll(s, ms[..i], o), ms[i], o));
  }

  function LockLeft(ms: seq<Message>, stopped: Option<nat>): set<string> {
    if stopped.Some? && stopped.value < |ms| && IsBlock(ms[stopped.value]) then {ms[stopped.value].part.value.root}
    else {}
  }

  lemma NextMessage(s: State, ms: seq<Message>, i: nat, o: Options)
    requires Usable(s.files, ms) && i < |ms| && Ready(s.files, ms[..i])
    requires forall j | 0 <= j < i :: Available(s.files, ms, j)
    ensures IsBlock(ms[i]) ==> (ms[i].file in HandleAll(s, ms[..i], o).files <==> Available(s.files, ms, i))
    ensures Available(s.files, ms, i) ==>
              && Ready(s.files, ms[..i + 1]) && Present(HandleAll(s, ms[..i], o).files, ms[i])
              && HandleAll(s, ms[..i + 1], o) == Handle(HandleAll(s, ms[..i], o), ms[i], o)
    ensures !IsBlock(ms[i]) ==> Available(s.files, ms, i)
  {
    if IsBlock(ms[i]) {
      FindsFile(s, ms, o, i);
    }
    if Available(s.files, ms, i) {
      OneMoreReady(s.files, ms, i);
      HandleTake(s, ms[..i + 1], i, o);
      assert ms[..i + 1][..i] == ms[..i] && ms[..i + 1][..i + 1] == ms[..i + 1];
    }
    hide Handle, HandleAll;
  }

  lemma OneMoreReady(files: map<string, seq<byte>>, ms: seq<Message>, i: nat)
    requires Usable(files, ms) && i < |ms| && Ready(files, ms[..i]) && Available(files, ms, i)
    ensures Ready(files, ms[..i + 1])
  {
    var next := ms[..i + 1];
    forall j | 0 <= j < |next| ensures Present(files, next[j]) {
      if j < i {
        assert Present(files, ms[..i][j]);
      }
    }
    forall j, k | 0 <= j < |next| && 0 <= k < |next| ensures Apart(next[j], next[k]) {
      assert Apart(ms[j], ms[k]);
    }
    forall j, k | 0 <= j < k < |next| && IsBlock(next[j]) && IsBlock(next[k]) ensures next[j].file != next[k].file {
      if k < i {
        assert ms[..i][j].file != ms[..i][k].file;
      }
    }
  }

  lemma {:induction false} StopsAt(files: map<string, seq<byte>>, ms: seq<Message>, i: nat)
    requires i <= |ms| && (forall j | 0 <= j < i :: Available(files, ms, j))
    requires i < |ms| ==> !Available(files, ms, i)
    ensures Reached(files, ms) == i
  {
    ReachedIs(files, ms);
    hide Available, Reached;
    var k := Reached(files, ms);
    assert k < |ms| ==> Available(files, ms, k) || i <= k;
    assert i < |ms| ==> Available(files, ms, i) || k <= i;
  }

  /** Two messages for one block file: the first is handled and changed where it stands, and the second
      ends the pass with nothing passed on. */
  lemma TwiceStops(s: State, m: Message, o: Options)
    requires IsBlock(m) && Present(s.files, m) && m.file != m.part.value.root
    ensures Usable(s.files, [m, m]) && Reached(s.files, [m, m]) == 1
    ensures Ready(s.files, [m])
    ensures PassOver(s, [m, m], o) == HandleAll(s.(ok := []), [m], o).(ok := [Became(s, m, o), m])
  {
    hide HandleAll, Became, Present, AllBecame, PassOver;
    assert Apart(m, m) && Available(s.files, [m, m], 0) by { PresentThere(s.files, m); }
    assert [m, m][0].file == [m, m][1].file;
    assert !Available(s.files, [m, m], 1);
    StopsAt(s.files, [m, m], 1);
    assert Usable(s.files, [m, m]) by { PresentThere(s.files, m); }
    assert Ready(s.files, [m]);
    hide Usable, Available, Reached, Ready;
    PassIs(s, [m, m], o);
    assert [m, m][..1] == [m] && [m, m][1..] == [m];
    OneBecame(s.(ok := []), m, o);
    assert Became(s.(ok := []), m, o) == Became(s, m, o) by { SameBecame(s, m, o); }
    assert [Became(s, m, o)] + [m] == [Became(s, m, o), m];
  }

  lemma PresentThere(files: map<string, seq<byte>>, m: Message)
    requires IsBlock(m) && Present(files, m)
    ensures m.file in files && Arrivable(BlockIn(files, m))
  {
  }

  lemma SameBecame(s: State, m: Message, o: Options)
    requires Present(s.files, m)
    ensures Became(s.(ok := []), m, o) == Became(s, m, o)
  {
  }

  lemma OneBecame(s: State, m: Message, o: Options)
    requires Ready(s.files, [m]) && Present(s.files, m)
    ensures AllBecame(s, [m], o) == [Became(s, m, o)]
  {
    hide Became;
    assert [m][..0] == [];
    assert HandleAll(s, [], o) == s && AllBecame(s, [], o) == [];
  }

  lemma HandleTake(s: State, ms: seq<Message>, i: nat, o: Options)
    requires Ready(s.files, ms) && i < |ms|
    ensures Ready(s.files, ms[..i]) && Ready(s.files, ms[..i + 1])
    ensures Present(HandleAll(s, ms[..i], o).files, ms[i])
    ensures HandleAll(s, ms[..i + 1], o) == Handle(HandleAll(s, ms[..i], o), ms[i], o)
  {
    ReadyTake(s.files, ms, i);
    ReadyTake(s.files, ms, i + 1);
    assert ms[..i + 1][..i] == ms[..i];
  }

  // The files that result.

  /** The blocks of the file `p` among the messages, in their order. */
  ghost function BlocksFor(files: map<string, seq<byte>>, ms: seq<Message>, p: string): (bs: seq<Block>)
    requires Ready(files, ms)
    ensures forall b | b in bs :: Arrivable(b)
    decreases |ms|
  {
    if ms == [] then []
    else
      var n := |ms| - 1;
      ReadyTake(files, ms, n);
      var before := BlocksFor(files, ms[..n], p);
      if IsBlock(ms[n]) && ms[n].part.value.root == p then before + [BlockIn(files, ms[n])] else before
  }

  ghost predicate NotPart(ms: seq<Message>, p: string) {
    forall i | 0 <= i < |ms| && IsBlock(ms[i]) :: p != ms[i].file
  }

  lemma {:induction false} EachFileReady(s: State, ms: seq<Message>, o: Options, p: string)
    requires Ready(s.files, ms) && NotPart(ms, p)
    ensures RootIn(HandleAll(s, ms, o).files, HandleAll(s, ms, o).stored, p)
         == ReceiveAll(RootIn(s.files, s.stored, p), BlocksFor(s.files, ms, p), o)
    decreases |ms|
  {
    if ms != [] {
      var n := |ms| - 1;
      ReadyTake(s.files, ms, n);
      EachFileReady(s, ms[..n], o, p);
      HandleTake(s, ms, n, o);
      assert ms[..|ms|] == ms;
      var before := HandleAll(s, ms[..n], o);
      RootStep(before, ms[n], o, p);
      if IsBlock(ms[n]) {
        assert before.files[ms[n].file] == s.files[ms[n].file];
        if ms[n].part.value.root == p {
          var bs := BlocksFor(s.files, ms, p);
          assert bs[..|bs| - 1] == BlocksFor(s.files, ms[..n], p);
        }
      }
      hide Handle, RootIn, Receive;
    }
  }

  lemma RootStep(s: State, m: Message, o: Options, p: string)
    requires Present(s.files, m) && (IsBlock(m) ==> p != m.file)
    ensures RootIn(Handle(s, m, o).files, Handle(s, m, o).stored, p)
         == if IsBlock(m) && m.part.value.root == p
            then Receive(RootIn(s.files, s.stored, p), BlockIn(s.files, m), o)
            else RootIn(s.files, s.stored, p)
  {
    hide Total, Offset, NewContent, StillWaiting, NewStored;
  }

  lemma VerdictReady(s: State, ms: seq<Message>, o: Options, i: nat)
    requires Ready(s.files, ms) && i < |ms| && IsBlock(ms[i])
    ensures Ready(s.files, ms[..i]) && Ready(s.files, ms[..i + 1])
    ensures var before, after := HandleAll(s, ms[..i], o), HandleAll(s, ms[..i + 1], o);
            var p := ms[i].part.value.root;
            match OutcomeOf(ReceiveAll(RootIn(s.files, s.stored, p), BlocksFor(s.files, ms[..i], p), o),
                            BlockIn(s.files, ms[i]))
            case Waiting(left) => after.rejected == before.rejected + [Reported(ms[i], left)]
                                  && after.ok == before.ok
            case Complete(size) => after.ok == before.ok + [Completed(ms[i], size)]
                                   && after.rejected == before.rejected
  {
    HandleTake(s, ms, i, o);
    ReadyTake(s.files, ms, i);
    var p := ms[i].part.value.root;
    forall j | 0 <= j < i && IsBlock(ms[j]) ensures p != ms[j].file {
      assert Apart(ms[j], ms[i]);
    }
    EachFileReady(s, ms[..i], o, p);
    assert HandleAll(s, ms[..i], o).files[ms[i].file] == s.files[ms[i].file];
    hide ReceiveAll, HandleAll, BlocksFor, OutcomeOf, Receive, RootIn;
  }

  /** Each file is put together from its own blocks, whatever else the pass brings: from those the
      pass deals with. */
  lemma EachFile(s: State, ms: seq<Message>, o: Options, p: string)
    requires Usable(s.files, ms) && NotPart(ms, p)
    ensures Ready(s.files, ms[..Reached(s.files, ms)])
    ensures RootIn(PassOver(s, ms, o).files, PassOver(s, ms, o).stored, p)
         == ReceiveAll(RootIn(s.files, s.stored, p), BlocksFor(s.files, ms[..Reached(s.files, ms)], p), o)
  {
    ReachedReady(s.files, ms);
    EachFileReady(s.(ok := []), ms[..Reached(s.files, ms)], o, p);
    hide HandleAll, ReceiveAll, BlocksFor, RootIn;
  }

  /** What becomes of a block message that a pass deals with: exactly one list grows, by what the
      blocks of its file that came before it decide. */
  lemma Verdict(s: State, ms: seq<Message>, o: Options, i: nat)
    requires Usable(s.files, ms) && i < Reached(s.files, ms) && IsBlock(ms[i])
    ensures Ready(s.files, ms[..i]) && Ready(s.files, ms[..i + 1])
    ensures var before, after := HandleAll(s, ms[..i], o), HandleAll(s, ms[..i + 1], o);
            var p := ms[i].part.value.root;
            match OutcomeOf(ReceiveAll(RootIn(s.files, s.stored, p), BlocksFor(s.files, ms[..i], p), o),
                            BlockIn(s.files, ms[i]))
            case Waiting(left) => after.rejected == before.rejected + [Reported(ms[i], left)]
                                  && after.ok == before.ok
            case Complete(size) => after.ok == before.ok + [Completed(ms[i], size)]
                                   && after.rejected == before.rejected
  {
    hide HandleAll, ReceiveAll, BlocksFor, OutcomeOf, RootIn, Usable, Ready, Reached;
    var k := Reached(s.files, ms);
    ReachedReady(s.files, ms);
    VerdictReady(s, ms[..k], o, i);
    assert ms[..k][..i] == ms[..i] && ms[..k][..i + 1] == ms[..i + 1] && ms[..k][i] == ms[i];
  }

  /** A message that is no block of a file is passed on as it is, after those before it, and touches
      nothing. */
  lemma OthersPass(s: State, ms: seq<Message>, o: Options, i: nat)
    requires Usable(s.files, ms) && i < Reached(s.files, ms) && !IsBlock(ms[i])
    ensures Ready(s.files, ms[..i]) && Ready(s.files, ms[..i + 1])
    ensures var before, after := HandleAll(s, ms[..i], o), HandleAll(s, ms[..i + 1], o);
            after == before.(ok := before.ok + [ms[i]])
  {
    hide HandleAll, Usable, Reached;
    var k := Reached(s.files, ms);
    ReachedReady(s.files, ms);
    HandleTake(s, ms[..k], i, o);
    assert ms[..k][..i] == ms[..i] && ms[..k][..i + 1] == ms[..i + 1] && ms[..k][i] == ms[i];
  }

  /** When the blocks of a version are among the messages that a pass deals with, in whatever order and
      among whatever else, the pass leaves the source in place. */
  lemma WholeFile(s: State, ms: seq<Message>, o: Options, p: string, v: Version, ks: seq<nat>)
    requires Usable(s.files, ms) && NotPart(ms, p) && Ready(s.files, ms[..Reached(s.files, ms)])
    requires IsVersion(v) && Completes(v, ks) && Sound(RootIn(s.files, s.stored, p))
    requires BlocksFor(s.files, ms[..Reached(s.files, ms)], p) == BlocksOf(v, ks)
    ensures p in PassOver(s, ms, o).files && PassOver(s, ms, o).files[p] == v.source
  {
    EachFile(s, ms, o, p);
    Reassembled(RootIn(s.files, s.stored, p), v, ks, o);
    hide ReceiveAll, PassOver, BlocksFor, BlocksOf;
  }

  // One version in one pass.

  ghost predicate OnlyBlocksOf(ms: seq<Message>, p: string) {
    forall i | 0 <= i < |ms| :: IsBlock(ms[i]) && ms[i].part.value.root == p
  }

  lemma {:induction false} BlocksTake(files: map<string, seq<byte>>, ms: seq<Message>, p: string, i: nat)
    requires Ready(files, ms) && OnlyBlocksOf(ms, p) && i <= |ms|
    ensures |BlocksFor(files, ms, p)| == |ms| && Ready(files, ms[..i])
    ensures BlocksFor(files, ms[..i], p) == BlocksFor(files, ms, p)[..i]
    ensures i < |ms| ==> BlocksFor(files, ms, p)[i] == BlockIn(files, ms[i])
    decreases |ms|
  {
    hide Ready, Present, Apart, Arrivable, Untouched, BlockIn;
    ReadyTake(files, ms, i);
    if i < |ms| {
      var n := |ms| - 1;
      ReadyTake(files, ms, n);
      BlocksTake(files, ms[..n], p, if i < n then i else n);
      assert ms[..n][..i] == ms[..i];
    } else {
      assert ms[..i] == ms;
      if ms != [] {
        ReadyTake(files, ms, |ms| - 1);
        BlocksTake(files, ms[..|ms| - 1], p, |ms| - 1);
      }
    }
  }

  /** The first `i` blocks of a version in one pass: all but the one that completes it are rejected. */
  lemma {:induction false} VersionSoFar(s: State, ms: seq<Message>, o: Options, p: string,
      v: Version, ks: seq<nat>, i: nat)
    requires Ready(s.files, ms) && OnlyBlocksOf(ms, p) && IsVersion(v) && Completes(v, ks) && i <= |ms|
    requires BetweenVersions(RootIn(s.files, s.stored, p)) && BlocksFor(s.files, ms, p) == BlocksOf(v, ks)
    ensures Ready(s.files, ms[..i]) && |ms| == |ks| && ms != []
    ensures var t := HandleAll(s, ms[..i], o);
            && t.ok == (if i < |ms| then s.ok else s.ok + [Completed(ms[|ms| - 1], |v.source|)])
            && |t.rejected| == |s.rejected| + if i < |ms| then i else i - 1
    decreases i
  {
    BlocksTake(s.files, ms, p, i);
    assert Received([]) == {} && 0 in All(v);
    if i > 0 {
      var k := i - 1;
      VersionSoFar(s, ms, o, p, v, ks, k);
      BlocksTake(s.files, ms, p, k);
      VerdictReady(s, ms, o, k);
      OrdinaryBlocks(v, ks, k);
      ForwardedOnce(RootIn(s.files, s.stored, p), v, ks, o, k);
      hide HandleAll, ReceiveAll, BlocksFor, BlocksOf, OutcomeOf, Received, Completes, Ready, RootIn;
    }
  }

  lemma OrdinaryBlocks(v: Version, ks: seq<nat>, k: nat)
    requires IsVersion(v) && Numbers(v, ks) && k < |ks|
    ensures Numbers(v, ks[..k]) && BlocksOf(v, ks)[..k] == BlocksOf(v, ks[..k])
         && BlocksOf(v, ks)[k] == BlockOf(v, ks[k])
  {
  }

  /** One pass that brings a version: one message is passed on, for the whole file with its size, and
      every other one is rejected; with n distinct blocks, n - 1. */
  lemma OneForwarded(s: State, ms: seq<Message>, o: Options, p: string, v: Version, ks: seq<nat>)
    requires Ready(s.files, ms) && OnlyBlocksOf(ms, p) && IsVersion(v) && Completes(v, ks)
    requires BetweenVersions(RootIn(s.files, s.stored, p)) && BlocksFor(s.files, ms, p) == BlocksOf(v, ks)
    ensures ms != [] && HandleAll(s, ms, o).ok == s.ok + [Completed(ms[|ms| - 1], |v.source|)]
    ensures |HandleAll(s, ms, o).rejected| == |s.rejected| + |ms| - 1
  {
    VersionSoFar(s, ms, o, p, v, ks, |ms|);
    assert ms[..|ms|] == ms;
    hide HandleAll;
  }
}
