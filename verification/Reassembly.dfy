/** The blocks of one version of a file, received in any order and with repeats: what the file
    holds when the last one has come, and what is said of each block. */
module Reassembly {
  import opened Sequences
  import opened Blocks

  /** A source file cut into `n` blocks of the given sizes. */
  datatype Version = Version(source: seq<byte>, sizes: Sizes, n: nat)

  ghost predicate IsVersion(v: Version) {
    v.n > 0 && Dense(v.sizes, v.n) && Offset(v.sizes, v.n) == |v.source|
  }

  ghost function BlockOf(v: Version, k: nat): (b: Block)
    requires IsVersion(v) && k < v.n
    ensures b.sizes == v.sizes && b.number == k && |b.data| == v.sizes[k]
  {
    OffsetMonotone(v.sizes, k + 1, v.n);
    Block(v.sizes, k, Fetch(v.source, v.sizes, k))
  }

  ghost predicate Numbers(v: Version, ks: seq<nat>) {
    forall i | 0 <= i < |ks| :: ks[i] < v.n
  }

  ghost function BlocksOf(v: Version, ks: seq<nat>): (bs: seq<Block>)
    requires IsVersion(v) && Numbers(v, ks)
    ensures |bs| == |ks|
    ensures forall i | 0 <= i < |ks| :: bs[i] == BlockOf(v, ks[i])
  {
    seq(|ks|, i requires 0 <= i < |ks| => BlockOf(v, ks[i]))
  }

  ghost function All(v: Version): set<nat> {
    v.sizes.Keys
  }

  ghost function Received(ks: seq<nat>): set<nat> {
    set k | k in ks
  }

  ghost function Missing(v: Version, got: set<nat>): Sizes
    requires IsVersion(v)
  {
    v.sizes - got
  }

  /** The blocks in `got` are in place. */
  ghost predicate Filled(f: seq<byte>, v: Version, got: set<nat>)
    requires IsVersion(v)
  {
    forall k, i | k in got && k < v.n && 0 <= i < |v.source| && InBlock(v.sizes, k, i) ::
      i < |f| && f[i] == v.source[i]
  }

  /** Between versions nothing is awaited; during one, the stored manifest has the received
      blocks, and exactly the others are awaited. */
  ghost predicate Progress(r: Root, v: Version, got: set<nat>)
    requires IsVersion(v)
  {
    && Filled(Content(r), v, got)
    && (got == {} ==> r.stored.Some? ==> r.stored.value.waiting.None?)
    && (got != {} ==> r.file.Some?)
    && (got != {} && got != All(v) ==> r.stored.Some? && r.stored.value.waiting == Some(Missing(v, got)))
    && (got == All(v) ==> r.stored.Some? ==> r.stored.value.waiting.None?)
    && (r.stored.Some? ==> HasSizes(r.stored.value.manifest, v, got))
  }

  ghost predicate HasSizes(manifest: Sizes, v: Version, got: set<nat>)
    requires IsVersion(v)
  {
    forall k | k in got && k < v.n :: k in manifest && manifest[k] == v.sizes[k]
  }

  lemma WrittenWhole(b: Block, bufSize: nat)
    requires b.number in b.sizes && |b.data| == b.sizes[b.number]
    ensures Written(b, bufSize) == b.data
  {
  }

  /** A part file longer than its block spills over into what follows if and only if a buffer holds more
      than the block; of an empty block nothing is written. */
  lemma SpillsIff(b: Block, bufSize: nat)
    requires Arrivable(b)
    ensures var size, w := b.sizes[b.number], Written(b, bufSize);
            && size <= |w| && w <= b.data
            && (w != b.data[..size] <==> 0 < size < bufSize && size < |b.data|)
            && (size == 0 ==> w == [])
  {
    var size, w := b.sizes[b.number], Written(b, bufSize);
    assert |w| == size ==> w == b.data[..size];
  }

  lemma BlockArrives(v: Version, k: nat)
    requires IsVersion(v) && k < v.n
    ensures Arrivable(BlockOf(v, k))
  {
    hide BlockOf, Offset, Total;
  }

  lemma BlockFits(v: Version, k: nat)
    requires IsVersion(v) && k < v.n
    ensures Offset(v.sizes, k) + v.sizes[k] <= |v.source| == Total(v.sizes)
  {
    OffsetMonotone(v.sizes, k + 1, v.n);
    TotalDense(v.sizes, v.n);
  }

  lemma FilledStep(r: Root, v: Version, k: nat, got: set<nat>, bufSize: nat)
    requires IsVersion(v) && k < v.n && Filled(Content(r), v, got) && Arrivable(BlockOf(v, k))
    ensures Filled(NewContent(r, BlockOf(v, k), bufSize), v, got + {k})
  {
    BlockFits(v, k);
    var b := BlockOf(v, k);
    WrittenWhole(b, bufSize);
    var f' := NewContent(r, b, bufSize);
    forall j, i | j in got + {k} && j < v.n && 0 <= i < |v.source| && InBlock(v.sizes, j, i)
      ensures i < |f'| && f'[i] == v.source[i]
    {
      hide Total, Offset;
      if j != k {
        assert i < |Content(r)| && Content(r)[i] == v.source[i];
      }
    }
  }

  lemma MissingStep(v: Version, got: set<nat>, k: nat)
    requires IsVersion(v) && k < v.n
    ensures Missing(v, got) - {k} == Missing(v, got + {k})
    ensures Missing(v, {}) == v.sizes
    ensures got <= All(v) ==> (Missing(v, got) == map[] <==> got == All(v))
  {
    if got <= All(v) && got != All(v) {
      var j :| j in All(v) && j !in got;
      assert j in Missing(v, got);
    }
  }

  /** What is still waited for after block `k`. */
  lemma WaitingStep(r: Root, v: Version, k: nat, got: set<nat>)
    requires IsVersion(v) && k < v.n && Progress(r, v, got) && got <= All(v) && got != All(v)
    ensures StillWaiting(r, BlockOf(v, k)) == Missing(v, got + {k})
  {
    BlockArrives(v, k);
    MissingStep(v, got, k);
    MissingStep(v, {}, k);
    assert {} + {k} == {k};
  }

  /** One block, new or repeated, of an unfinished version. */
  lemma ReceiveStep(r: Root, v: Version, k: nat, got: set<nat>, o: Options)
    requires IsVersion(v) && k < v.n && Progress(r, v, got) && got <= All(v) && got != All(v)
    requires Arrivable(BlockOf(v, k))
    ensures Progress(Receive(r, BlockOf(v, k), o), v, got + {k})
  {
    var r' := Receive(r, BlockOf(v, k), o);
    FilledStep(r, v, k, got, o.bufSize);
    WaitingStep(r, v, k, got);
    MissingStep(v, got + {k}, k);
    hide Filled, NewContent, Missing, StillWaiting, Offset, Total, Arrivable, Dense;
    assert r'.stored.Some? ==> HasSizes(r'.stored.value.manifest, v, got + {k});
  }

  lemma OutcomeStep(r: Root, v: Version, k: nat, got: set<nat>)
    requires IsVersion(v) && k < v.n && Progress(r, v, got) && got <= All(v) && got != All(v)
    ensures OutcomeOf(r, BlockOf(v, k))
         == if got + {k} == All(v) then Complete(|v.source|) else Waiting(|All(v) - got - {k}|)
  {
    WaitingStep(r, v, k, got);
    MissingStep(v, got + {k}, k);
    TotalDense(v.sizes, v.n);
    assert Missing(v, got + {k}).Keys == All(v) - got - {k};
  }

  // The length of the file.

  /** Whether the file is cut at one of the arrivals. */
  ghost predicate EverCut(r: Root, bs: seq<Block>, o: Options)
    requires forall b | b in bs :: Arrivable(b)
  {
    bs != [] &&
    (EverCut(r, bs[..|bs| - 1], o) || Cuts(ReceiveAll(r, bs[..|bs| - 1], o), bs[|bs| - 1]))
  }

  /** A file longer than the new version keeps its length until it is cut. */
  ghost predicate LengthOk(start: nat, f: seq<byte>, size: nat, cut: bool) {
    if start <= size || cut then |f| <= size else |f| == start
  }

  lemma LengthStep(r: Root, v: Version, k: nat, start: nat, cut: bool, bufSize: nat)
    requires IsVersion(v) && k < v.n && Arrivable(BlockOf(v, k))
    requires LengthOk(start, Content(r), |v.source|, cut)
    ensures LengthOk(start, NewContent(r, BlockOf(v, k), bufSize), |v.source|, cut || Cuts(r, BlockOf(v, k)))
  {
    BlockFits(v, k);
    WrittenWhole(BlockOf(v, k), bufSize);
    hide Total, Offset;
  }

  lemma {:induction false} FullContent(f: seq<byte>, v: Version)
    requires IsVersion(v) && Filled(f, v, All(v))
    ensures |f| >= |v.source| && f[..|v.source|] == v.source
  {
    forall i | 0 <= i < |v.source| ensures i < |f| && f[i] == v.source[i] {
      var k := FindBlock(v.sizes, v.n, i);
      assert k in All(v);
    }
    if v.source != [] {
      var k := FindBlock(v.sizes, v.n, |v.source| - 1);
      assert k in All(v) && InBlock(v.sizes, k, |v.source| - 1);
    }
  }

  // A whole version.

  /** Something is missing before each arrival. */
  ghost predicate NeverEarly(v: Version, ks: seq<nat>) {
    forall i | 0 <= i < |ks| :: Received(ks[..i]) != All(v)
  }

  /** `ks` brings every block, and does so only with its last element. */
  ghost predicate Completes(v: Version, ks: seq<nat>) {
    Numbers(v, ks) && Received(ks) == All(v) && NeverEarly(v, ks)
  }

  ghost predicate BetweenVersions(r: Root) {
    r.stored.Some? ==> r.stored.value.waiting.None?
  }

  lemma AllArrive(v: Version, ks: seq<nat>)
    requires IsVersion(v) && Numbers(v, ks)
    ensures forall b | b in BlocksOf(v, ks) :: Arrivable(b)
    ensures Received(ks) <= All(v)
  {
    forall b | b in BlocksOf(v, ks) ensures Arrivable(b) {
      var i :| 0 <= i < |ks| && BlocksOf(v, ks)[i] == b;
      BlockArrives(v, ks[i]);
    }
  }

  lemma SnocArrivals(v: Version, ks: seq<nat>)
    requires IsVersion(v) && ks != [] && Numbers(v, ks)
    ensures var n := |ks| - 1;
            && Numbers(v, ks[..n])
            && BlocksOf(v, ks)[..n] == BlocksOf(v, ks[..n])
            && BlocksOf(v, ks)[n] == BlockOf(v, ks[n])
            && Received(ks) == Received(ks[..n]) + {ks[n]}
  {
    var n := |ks| - 1;
    assert ks == ks[..n] + [ks[n]];
  }

  lemma {:induction false} ReceiveSome(r: Root, v: Version, ks: seq<nat>, o: Options)
    requires IsVersion(v) && BetweenVersions(r)
    requires Numbers(v, ks)
    requires NeverEarly(v, ks)
    ensures forall b | b in BlocksOf(v, ks) :: Arrivable(b)
    ensures var r' := ReceiveAll(r, BlocksOf(v, ks), o);
            && Progress(r', v, Received(ks))
            && LengthOk(|Content(r)|, Content(r'), |v.source|, EverCut(r, BlocksOf(v, ks), o))
    decreases |ks|
  {
    AllArrive(v, ks);
    if ks == [] {
      assert Received(ks) == {};
      assert 0 in All(v);
    } else {
      var n := |ks| - 1;
      var init, k := ks[..n], ks[n];
      SnocArrivals(v, ks);
      forall i | 0 <= i < n ensures Received(init[..i]) != All(v) {
        assert init[..i] == ks[..i];
      }
      ReceiveSome(r, v, init, o);
      AllArrive(v, init);
      BlockArrives(v, k);
      var mid := ReceiveAll(r, BlocksOf(v, init), o);
      ReceiveStep(mid, v, k, Received(init), o);
      LengthStep(mid, v, k, |Content(r)|, EverCut(r, BlocksOf(v, init), o), o.bufSize);
      hide Progress, NewContent, NewStored, Cuts, BlockOf, Arrivable, LengthOk, Received;
    }
  }

  // When the file is cut.

  function ManifestOf(r: Root): Sizes {
    if r.stored.Some? then r.stored.value.manifest else map[]
  }

  /** The manifest `m` with the blocks in `got` replaced by those of the version. */
  function Overridden(m: Sizes, v: Version, got: set<nat>): Sizes {
    m + map k | k in v.sizes && k in got :: v.sizes[k]
  }

  /** As long as the version is not complete, the stored manifest is the old one overridden by the
      blocks that have come. */
  lemma {:induction false} ManifestGrows(r: Root, v: Version, ks: seq<nat>, o: Options)
    requires IsVersion(v) && BetweenVersions(r) && Numbers(v, ks) && NeverEarly(v, ks) && Received(ks) != All(v)
    ensures forall b | b in BlocksOf(v, ks) :: Arrivable(b)
    ensures var r' := ReceiveAll(r, BlocksOf(v, ks), o);
            && ManifestOf(r') == Overridden(ManifestOf(r), v, Received(ks))
            && (r'.stored.Some? <==> r.stored.Some? || ks != [])
    decreases |ks|
  {
    AllArrive(v, ks);
    if ks == [] {
      assert Received(ks) == {};
    } else {
      var n := |ks| - 1;
      var init, k := ks[..n], ks[n];
      SnocArrivals(v, ks);
      NeverEarlyTake(v, ks, n);
      assert Received(init) != All(v);
      ManifestGrows(r, v, init, o);
      ReceiveSome(r, v, init, o);
      AllArrive(v, init);
      var mid := ReceiveAll(r, BlocksOf(v, init), o);
      ManifestStep(mid, v, k, Received(init), o);
      hide Progress, Receive, LengthOk, Received, BlockOf, Arrivable, ManifestOf, Overridden, NeverEarly;
      OverriddenStep(ManifestOf(r), v, Received(init), k);
    }
  }

  lemma NeverEarlyTake(v: Version, ks: seq<nat>, n: nat)
    requires NeverEarly(v, ks) && n <= |ks|
    ensures NeverEarly(v, ks[..n])
  {
    forall i | 0 <= i < n ensures Received(ks[..n][..i]) != All(v) {
      assert ks[..n][..i] == ks[..i];
    }
  }

  lemma OverriddenStep(m: Sizes, v: Version, got: set<nat>, k: nat)
    requires k in v.sizes
    ensures Overridden(m, v, got)[k := v.sizes[k]] == Overridden(m, v, got + {k})
  {
  }

  lemma ManifestStep(r: Root, v: Version, k: nat, got: set<nat>, o: Options)
    requires IsVersion(v) && k < v.n && Progress(r, v, got) && got <= All(v) && got + {k} != All(v)
    requires got != All(v) && Arrivable(BlockOf(v, k))
    ensures var r' := Receive(r, BlockOf(v, k), o);
            r'.stored.Some? && ManifestOf(r') == ManifestOf(r)[k := v.sizes[k]]
  {
    WaitingStep(r, v, k, got);
    MissingStep(v, got + {k}, k);
    hide Progress, Missing, StillWaiting, NewContent, Offset, Total;
  }

  /** Whether the file is cut when `ks[i]` comes, read off what is there at the start: its length, if
      it has no manifest, and otherwise its manifest. */
  ghost predicate CutAt(r: Root, v: Version, ks: seq<nat>, i: nat)
    requires i < |ks|
  {
    if r.stored.None? then i == 0 && |Content(r)| > |v.source|
    else Total(Overridden(r.stored.value.manifest, v, Received(ks[..i]))) > |v.source|
  }

  lemma CutAtIs(r: Root, v: Version, ks: seq<nat>, i: nat, o: Options)
    requires IsVersion(v) && BetweenVersions(r) && Numbers(v, ks) && NeverEarly(v, ks) && i < |ks|
    ensures Numbers(v, ks[..i]) && forall b | b in BlocksOf(v, ks[..i]) :: Arrivable(b)
    ensures Cuts(ReceiveAll(r, BlocksOf(v, ks[..i]), o), BlockOf(v, ks[i])) <==> CutAt(r, v, ks, i)
  {
    NeverEarlyTake(v, ks, i);
    assert Received(ks[..i]) != All(v);
    ManifestGrows(r, v, ks[..i], o);
    BlockFits(v, ks[i]);
    var m := Overridden(map[], v, Received(ks[..i]));
    TotalSubmap(m, v.sizes);
    assert ks[..0] == [];
    hide Total, Offset, Overridden, Received, NeverEarly, Arrivable;
    if i == 0 {
      assert BlocksOf(v, ks[..i]) == [];
    }
  }

  ghost predicate CutSomewhere(r: Root, v: Version, ks: seq<nat>) {
    exists i :: 0 <= i < |ks| && CutAt(r, v, ks, i)
  }

  lemma CutSomewhereSnoc(r: Root, v: Version, ks: seq<nat>)
    requires ks != []
    ensures CutSomewhere(r, v, ks) <==> CutSomewhere(r, v, ks[..|ks| - 1]) || CutAt(r, v, ks, |ks| - 1)
  {
    var n := |ks| - 1;
    forall i | 0 <= i < n ensures CutAt(r, v, ks[..n], i) == CutAt(r, v, ks, i) {
      assert ks[..n][..i] == ks[..i];
    }
    hide CutAt;
  }

  lemma {:induction false} EverCutIff(r: Root, v: Version, ks: seq<nat>, o: Options)
    requires IsVersion(v) && BetweenVersions(r) && Numbers(v, ks) && NeverEarly(v, ks)
    ensures forall b | b in BlocksOf(v, ks) :: Arrivable(b)
    ensures EverCut(r, BlocksOf(v, ks), o) <==> CutSomewhere(r, v, ks)
    decreases |ks|
  {
    AllArrive(v, ks);
    if ks != [] {
      hide CutAt, Cuts, NeverEarly, Received, Arrivable, CutSomewhere, Numbers, IsVersion, BetweenVersions;
      var n := |ks| - 1;
      SnocArrivals(v, ks);
      NeverEarlyTake(v, ks, n);
      EverCutIff(r, v, ks[..n], o);
      CutAtIs(r, v, ks, n, o);
      CutSomewhereSnoc(r, v, ks);
    }
  }

  /** For every order of arrival, with repeats: the file is exactly the source if and only if what was
      there was no longer than the source, or had no manifest, or had one that at some arrival, with
      the blocks come so far in place of its own, stands for more than the source. */
  lemma ReassembledIff(r: Root, v: Version, ks: seq<nat>, o: Options)
    requires IsVersion(v) && BetweenVersions(r) && Completes(v, ks)
    ensures forall b | b in BlocksOf(v, ks) :: Arrivable(b)
    ensures ReceiveAll(r, BlocksOf(v, ks), o).file == Some(v.source) <==>
              || |Content(r)| <= |v.source|
              || r.stored.None?
              || CutSomewhere(r, v, ks)
  {
    hide Received, ReceiveAll, EverCut, Total, NeverEarly;
    ReplacedIff(r, v, ks, o);
    EverCutIff(r, v, ks, o);
    assert ks != [] by { SomethingArrives(v, ks); }
    if r.stored.None? && |Content(r)| > |v.source| {
      assert CutAt(r, v, ks, 0);
    }
  }

  lemma SomethingArrives(v: Version, ks: seq<nat>)
    requires IsVersion(v) && Completes(v, ks)
    ensures ks != []
  {
    assert 0 in All(v);
  }

  lemma ReplacedIff(r: Root, v: Version, ks: seq<nat>, o: Options)
    requires IsVersion(v) && BetweenVersions(r) && Completes(v, ks)
    ensures forall b | b in BlocksOf(v, ks) :: Arrivable(b)
    ensures var r' := ReceiveAll(r, BlocksOf(v, ks), o);
            r'.file == Some(v.source) <==>
              |Content(r)| <= |v.source| || EverCut(r, BlocksOf(v, ks), o)
  {
    ReceiveSome(r, v, ks, o);
    var r' := ReceiveAll(r, BlocksOf(v, ks), o);
    assert 0 in All(v);
    FullContent(Content(r'), v);
    if |Content(r')| <= |v.source| {
      assert Content(r') == v.source;
    }
  }

  /** The stored manifest never promises less than the file holds. */
  ghost predicate Sound(r: Root) {
    BetweenVersions(r) && (r.stored.Some? ==> |Content(r)| <= Total(r.stored.value.manifest))
  }

  lemma {:induction false} CutAtFirst(r: Root, bs: seq<Block>, o: Options)
    requires (forall b | b in bs :: Arrivable(b)) && bs != [] && Cuts(r, bs[0])
    ensures EverCut(r, bs, o)
    decreases |bs|
  {
    if |bs| > 1 {
      CutAtFirst(r, bs[..|bs| - 1], o);
    } else {
      assert ReceiveAll(r, bs[..0], o) == r;
    }
  }

  /** Starting from no file, from a file of any length with no manifest, or from a finished
      earlier version of any length, the whole source is reassembled with its exact length, and
      the result is again such a starting point. */
  lemma Reassembled(r: Root, v: Version, ks: seq<nat>, o: Options)
    requires IsVersion(v) && Sound(r) && Completes(v, ks)
    ensures forall b | b in BlocksOf(v, ks) :: Arrivable(b)
    ensures ReceiveAll(r, BlocksOf(v, ks), o).file == Some(v.source)
    ensures Sound(ReceiveAll(r, BlocksOf(v, ks), o))
  {
    ReceiveSome(r, v, ks, o);
    ReplacedIff(r, v, ks, o);
    var bs := BlocksOf(v, ks);
    if |Content(r)| > |v.source| {
      FirstCuts(r, v, ks);
      CutAtFirst(r, bs, o);
    }
    SoundAfter(ReceiveAll(r, bs, o), v);
  }

  lemma FirstCuts(r: Root, v: Version, ks: seq<nat>)
    requires IsVersion(v) && Sound(r) && Completes(v, ks) && |Content(r)| > |v.source|
    ensures ks != [] && Cuts(r, BlocksOf(v, ks)[0])
  {
    assert 0 in All(v);
    BlockFits(v, ks[0]);
    hide Offset, Total;
  }

  /** Once a version is complete nothing is awaited any more; its manifest is gone if and only if it was
      configured to go, and otherwise is the old one overridden by that of the version. */
  lemma ManifestLeft(r: Root, v: Version, ks: seq<nat>, o: Options)
    requires IsVersion(v) && BetweenVersions(r) && Completes(v, ks)
    ensures forall b | b in BlocksOf(v, ks) :: Arrivable(b)
    ensures var r' := ReceiveAll(r, BlocksOf(v, ks), o);
            && (r'.stored.None? <==> o.deleteManifest)
            && (r'.stored.Some? ==> r'.stored.value == Stored(Overridden(ManifestOf(r), v, All(v)), None))
  {
    hide NewContent, Total, ReceiveAll, NewStored, NewManifest, StillWaiting, Progress, LengthOk, Overridden;
    hide ManifestOf;
    AllArrive(v, ks);
    SomethingArrives(v, ks);
    var n := |ks| - 1;
    var init, k := ks[..n], ks[n];
    SnocArrivals(v, ks);
    NeverEarlyTake(v, ks, n);
    assert Received(init) != All(v);
    AllArrive(v, init);
    ReceiveSome(r, v, init, o);
    ManifestGrows(r, v, init, o);
    BlockArrives(v, k);
    var mid := ReceiveAll(r, BlocksOf(v, init), o);
    ReceiveLast(r, v, ks, o);
    LastStored(mid, v, k, Received(init), o);
    OverriddenLast(ManifestOf(r), v, Received(init), k);
  }

  lemma ReceiveLast(r: Root, v: Version, ks: seq<nat>, o: Options)
    requires IsVersion(v) && ks != [] && Numbers(v, ks) && Numbers(v, ks[..|ks| - 1])
    requires forall b | b in BlocksOf(v, ks) :: Arrivable(b)
    requires forall b | b in BlocksOf(v, ks[..|ks| - 1]) :: Arrivable(b)
    requires Arrivable(BlockOf(v, ks[|ks| - 1]))
    ensures ReceiveAll(r, BlocksOf(v, ks), o)
         == Receive(ReceiveAll(r, BlocksOf(v, ks[..|ks| - 1]), o), BlockOf(v, ks[|ks| - 1]), o)
  {
    SnocArrivals(v, ks);
    hide Receive, Arrivable;
  }

  lemma LastStored(mid: Root, v: Version, k: nat, got: set<nat>, o: Options)
    requires IsVersion(v) && k < v.n && Progress(mid, v, got) && got <= All(v) && got != All(v) && got + {k} == All(v)
    requires Arrivable(BlockOf(v, k))
    ensures Receive(mid, BlockOf(v, k), o).stored
         == if o.deleteManifest then None else Some(Stored(ManifestOf(mid)[k := v.sizes[k]], None))
  {
    OutcomeStep(mid, v, k, got);
    hide NewContent, Total, Progress, StillWaiting;
  }

  lemma OverriddenLast(m: Sizes, v: Version, got: set<nat>, k: nat)
    requires IsVersion(v) && k < v.n && got + {k} == All(v)
    ensures Overridden(m, v, got)[k := v.sizes[k]] == Overridden(m, v, All(v))
  {
  }

  lemma SoundAfter(r: Root, v: Version)
    requires IsVersion(v) && Progress(r, v, All(v)) && r.file == Some(v.source)
    ensures Sound(r)
  {
    if r.stored.Some? {
      TotalDense(v.sizes, v.n);
      hide Offset;
      TotalSubmap(v.sizes, r.stored.value.manifest);
    }
  }

  /** A file that grew behind the back of its manifest, and a new version between the two
      lengths: the surplus stays at the end. */
  lemma SurplusKept(o: Options)
    ensures var v := Version([7], map[0 := 1], 1);
            var r := Root(Some([1, 2]), Some(Stored(map[0 := 1], None)));
            && IsVersion(v) && BetweenVersions(r) && Completes(v, [0])
            && (forall b | b in BlocksOf(v, [0]) :: Arrivable(b))
            && ReceiveAll(r, BlocksOf(v, [0]), o).file != Some(v.source)
  {
    var v := Version([7], map[0 := 1], 1);
    var r := Root(Some([1, 2]), Some(Stored(map[0 := 1], None)));
    assert Offset(v.sizes, 1) == Offset(v.sizes, 0) + 1;
    assert IsVersion(v);
    assert [0][..0] == [];
    assert All(v) == {0} == Received([0]);
    assert Received([]) == {};
    assert Completes(v, [0]);
    ReplacedIff(r, v, [0], o);
    var bs := BlocksOf(v, [0]);
    assert bs[..0] == [];
    TotalDense(v.sizes, 1);
    assert !EverCut(r, bs, o);
  }

  lemma ReceivedTake(ks: seq<nat>, i: nat)
    requires i < |ks|
    ensures Received(ks[..i + 1]) == Received(ks[..i]) + {ks[i]}
  {
    assert ks[..i + 1] == ks[..i] + [ks[i]];
  }

  lemma CompletesAt(v: Version, ks: seq<nat>, i: nat)
    requires Completes(v, ks) && i < |ks|
    ensures ks[i] < v.n
    ensures Received(ks[..i + 1]) == All(v) <==> i == |ks| - 1
    ensures Numbers(v, ks[..i]) && NeverEarly(v, ks[..i]) && Received(ks[..i]) != All(v)
  {
    assert ks[..|ks|] == ks;
    forall j | 0 <= j < i ensures Received(ks[..i][..j]) != All(v) {
      assert ks[..i][..j] == ks[..j];
    }
  }

  /** What is said of each block: the one that completes the set is forwarded, with the size of
      the whole; every other one waits for as many more as are missing. */
  lemma ForwardedOnce(r: Root, v: Version, ks: seq<nat>, o: Options, i: nat)
    requires IsVersion(v) && BetweenVersions(r) && Completes(v, ks) && i < |ks|
    ensures forall b | b in BlocksOf(v, ks[..i]) :: Arrivable(b)
    ensures OutcomeOf(ReceiveAll(r, BlocksOf(v, ks[..i]), o), BlockOf(v, ks[i]))
         == if i == |ks| - 1 then Complete(|v.source|) else Waiting(|All(v) - Received(ks[..i + 1])|)
  {
    hide *;
    var got := Received(ks[..i]);
    CompletesAt(v, ks, i);
    ReceiveSome(r, v, ks[..i], o);
    AllArrive(v, ks[..i]);
    OutcomeStep(ReceiveAll(r, BlocksOf(v, ks[..i]), o), v, ks[i], got);
    ReceivedTake(ks, i);
    assert All(v) - got - {ks[i]} == All(v) - (got + {ks[i]});
  }

  /** The versions of a file, one after the other, each complete. */
  datatype Delivery = Delivery(v: Version, ks: seq<nat>)

  ghost predicate Deliverable(ds: seq<Delivery>) {
    forall i | 0 <= i < |ds| :: IsVersion(ds[i].v) && Completes(ds[i].v, ds[i].ks)
  }

  ghost function DeliverAll(r: Root, ds: seq<Delivery>, o: Options): Root
    requires Deliverable(ds)
  {
    if ds == [] then r
    else
      var n := |ds| - 1;
      AllArrive(ds[n].v, ds[n].ks);
      ReceiveAll(DeliverAll(r, ds[..n], o), BlocksOf(ds[n].v, ds[n].ks), o)
  }

  /** After any number of versions, the file is the last one. */
  lemma {:induction false} EveryVersion(r: Root, ds: seq<Delivery>, o: Options)
    requires Sound(r) && Deliverable(ds)
    ensures Sound(DeliverAll(r, ds, o))
    ensures ds != [] ==> DeliverAll(r, ds, o).file == Some(ds[|ds| - 1].v.source)
    decreases |ds|
  {
    if ds != [] {
      var n := |ds| - 1;
      EveryVersion(r, ds[..n], o);
      Reassembled(DeliverAll(r, ds[..n], o), ds[n].v, ds[n].ks, o);
    }
  }
}
