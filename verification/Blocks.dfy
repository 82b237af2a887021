/** Files sent in blocks: where each block lies in the whole, and what receiving one does to the
    partly assembled file and to the record of what is still awaited. */
module Blocks {
  import opened Sequences

  newtype byte = x: int | 0 <= x < 256

  /** A manifest gives the size of each block by its number. */
  type Sizes = map<nat, nat>

  ghost predicate Dense(sizes: Sizes, n: nat) {
    forall k: nat :: k in sizes <==> k < n
  }

  /** The sum of the sizes of the blocks before block `k`. */
  function Offset(sizes: Sizes, k: nat): nat
    requires forall i: nat | i < k :: i in sizes
  {
    if k == 0 then 0 else Offset(sizes, k - 1) + sizes[k - 1]
  }

  ghost function Total(sizes: Sizes): nat
    decreases |sizes.Keys|
  {
    if sizes == map[] then 0
    else
      var k :| k in sizes;
      SmallerWithout(sizes, k);
      sizes[k] + Total(sizes - {k})
  }

  lemma SmallerWithout(sizes: Sizes, k: nat)
    requires k in sizes
    ensures |(sizes - {k}).Keys| < |sizes.Keys|
  {
    assert (sizes - {k}).Keys == sizes.Keys - {k};
  }

  /** The sum does not depend on the order in which the blocks are visited. */
  lemma {:induction false} TotalWithout(sizes: Sizes, k: nat)
    requires k in sizes
    ensures Total(sizes) == sizes[k] + Total(sizes - {k})
    decreases |sizes.Keys|
  {
    var j :| j in sizes && Total(sizes) == sizes[j] + Total(sizes - {j});
    if j != k {
      SmallerWithout(sizes, j);
      SmallerWithout(sizes, k);
      TotalWithout(sizes - {j}, k);
      TotalWithout(sizes - {k}, j);
      assert sizes - {j} - {k} == sizes - {k} - {j};
    }
  }

  lemma {:induction false} TotalSubmap(a: Sizes, b: Sizes)
    requires forall k | k in a :: k in b && b[k] == a[k]
    ensures Total(a) <= Total(b)
    decreases |a.Keys|
  {
    if a != map[] {
      var k :| k in a;
      SmallerWithout(a, k);
      TotalWithout(a, k);
      TotalWithout(b, k);
      TotalSubmap(a - {k}, b - {k});
    }
  }

  lemma {:induction false} TotalDense(sizes: Sizes, n: nat)
    requires Dense(sizes, n)
    ensures Total(sizes) == Offset(sizes, n)
    decreases n
  {
    if n == 0 {
      assert sizes == map[];
    } else {
      var rest := sizes - {n - 1};
      TotalWithout(sizes, n - 1);
      TotalDense(rest, n - 1);
      OffsetSame(rest, sizes, n - 1);
    }
  }

  lemma {:induction false} OffsetSame(a: Sizes, b: Sizes, k: nat)
    requires forall i: nat | i < k :: i in a && i in b && a[i] == b[i]
    ensures Offset(a, k) == Offset(b, k)
  {
    if k > 0 {
      OffsetSame(a, b, k - 1);
    }
  }

  lemma {:induction false} OffsetMonotone(sizes: Sizes, j: nat, k: nat)
    requires j <= k && forall i: nat | i < k :: i in sizes
    ensures Offset(sizes, j) <= Offset(sizes, k)
    decreases k
  {
    if j < k {
      OffsetMonotone(sizes, j, k - 1);
    }
  }

  ghost predicate InBlock(sizes: Sizes, k: nat, i: nat)
    requires forall j: nat | j <= k :: j in sizes
  {
    Offset(sizes, k) <= i < Offset(sizes, k) + sizes[k]
  }

  lemma {:induction false} FindBlock(sizes: Sizes, n: nat, i: nat) returns (k: nat)
    requires (forall j: nat | j < n :: j in sizes) && i < Offset(sizes, n)
    ensures k < n && InBlock(sizes, k, i)
    decreases n
  {
    if i >= Offset(sizes, n - 1) {
      k := n - 1;
    } else {
      k := FindBlock(sizes, n - 1, i);
    }
  }

  /** The blocks tile the file: every position lies in exactly one block. */
  lemma BlocksTile(sizes: Sizes, n: nat, i: nat)
    requires (forall j: nat | j < n :: j in sizes) && i < Offset(sizes, n)
    ensures exists k: nat :: k < n && InBlock(sizes, k, i)
    ensures forall j: nat, k: nat | j < k < n :: !(InBlock(sizes, j, i) && InBlock(sizes, k, i))
  {
    var found := FindBlock(sizes, n, i);
    forall j: nat, k: nat | j < k < n ensures !(InBlock(sizes, j, i) && InBlock(sizes, k, i)) {
      OffsetMonotone(sizes, j + 1, k);
    }
  }

  /** The loop of the downloader: counting down from the block to the first. */
  method RemoteOffset(sizes: Sizes, number: nat) returns (offset: nat)
    requires forall i: nat | i < number :: i in sizes
    ensures offset == Offset(sizes, number)
  {
    offset := 0;
    var blkno: nat := number;
    while blkno > 0
      invariant blkno <= number && offset + Offset(sizes, blkno) == Offset(sizes, number)
    {
      blkno := blkno - 1;
      offset := offset + sizes[blkno];
    }
  }

  /** The loop of the reassembler: counting up from the first block. */
  method SeekOffset(sizes: Sizes, number: nat) returns (offset: nat)
    requires forall i: nat | i < number :: i in sizes
    ensures offset == Offset(sizes, number)
  {
    offset := 0;
    var i: nat := 0;
    while i < number
      invariant i <= number && offset == Offset(sizes, i)
    {
      offset := offset + sizes[i];
      i := i + 1;
    }
  }

  method SumSizes(sizes: Sizes) returns (total: nat)
    ensures total == Total(sizes)
  {
    total := 0;
    var todo := sizes;
    while todo != map[]
      invariant total + Total(todo) == Total(sizes)
      decreases |todo.Keys|
    {
      var k :| k in todo;
      TotalWithout(todo, k);
      SmallerWithout(todo, k);
      total := total + todo[k];
      todo := todo - {k};
    }
  }

  // Files.

  function Zeros(n: nat): (r: seq<byte>)
    ensures |r| == n && forall i | 0 <= i < n :: r[i] == 0
  {
    seq(n, _ => 0)
  }

  /** Cutting a file at `n`, or extending it with zeros. */
  function Truncate(f: seq<byte>, n: nat): (r: seq<byte>)
    ensures |r| == n
    ensures forall i | 0 <= i < n :: r[i] == if i < |f| then f[i] else 0
  {
    if n <= |f| then f[..n] else f + Zeros(n - |f|)
  }

  function Max(a: nat, b: nat): nat {
    if a > b then a else b
  }

  function Min(a: nat, b: nat): nat {
    if a < b then a else b
  }

  /** Seeking to `at` and writing `data`; a gap left by the seek reads as zeros. */
  function WriteAt(f: seq<byte>, at: nat, data: seq<byte>): (r: seq<byte>)
    ensures data == [] ==> r == f
    ensures data != [] ==> |r| == Max(|f|, at + |data|)
    ensures data != [] ==> forall i | 0 <= i < |r| ::
              r[i] == if at <= i < at + |data| then data[i - at] else if i < |f| then f[i] else 0
  {
    if data == [] then f
    else
      var head := Truncate(f, at);
      head + data + if |f| > at + |data| then f[at + |data|..] else []
  }

  /** The part of `source` that is block `k`: what the downloader fetches. */
  function Fetch(source: seq<byte>, sizes: Sizes, k: nat): seq<byte>
    requires (forall i: nat | i <= k :: i in sizes) && Offset(sizes, k + 1) <= |source|
  {
    source[Offset(sizes, k)..Offset(sizes, k) + sizes[k]]
  }

  // Receiving a block.

  /** What is recorded beside a partly or wholly assembled file. */
  datatype Stored = Stored(manifest: Sizes, waiting: Option<Sizes>)

  datatype Root = Root(file: Option<seq<byte>>, stored: Option<Stored>)

  /** A block file with the manifest and number that came in its message. */
  datatype Block = Block(sizes: Sizes, number: nat, data: seq<byte>)

  datatype Outcome = Waiting(left: nat) | Complete(size: nat)

  /** The part file is at least as long as its manifest entry; a shorter one would make the copy
      loop spin forever at its end. */
  ghost predicate Arrivable(b: Block) {
    && (forall i: nat | i <= b.number :: i in b.sizes)
    && |b.data| >= b.sizes[b.number]
  }

  function Content(r: Root): seq<byte> {
    if r.file.Some? then r.file.value else []
  }

  ghost function OldSize(r: Root): nat {
    if r.stored.Some? then Total(r.stored.value.manifest) else |Content(r)|
  }

  /** Whether the file is cut when `b` arrives. */
  ghost predicate Cuts(r: Root, b: Block) {
    Total(b.sizes) < OldSize(r)
  }

  /** What the copy loop writes: it reads whole buffers. */
  function Written(b: Block, bufSize: nat): seq<byte>
    requires b.number in b.sizes
  {
    var size := b.sizes[b.number];
    if size == 0 then [] else b.data[..Min(|b.data|, Max(bufSize, size))]
  }

  function StillWaiting(r: Root, b: Block): Sizes {
    (if r.stored.Some? && r.stored.value.waiting.Some? then r.stored.value.waiting.value else b.sizes)
    - {b.number}
  }

  function NewManifest(r: Root, b: Block): Sizes
    requires b.number in b.sizes
  {
    (if r.stored.Some? then r.stored.value.manifest else map[])[b.number := b.sizes[b.number]]
  }

  ghost function NewContent(r: Root, b: Block, bufSize: nat): seq<byte>
    requires Arrivable(b)
  {
    var f := if Cuts(r, b) then Truncate(Content(r), Total(b.sizes)) else Content(r);
    WriteAt(f, Offset(b.sizes, b.number), Written(b, bufSize))
  }

  datatype Options = Options(bufSize: nat, deleteManifest: bool)

  function AfterBlock(manifest: Sizes, waiting: Sizes, o: Options): Option<Stored> {
    if waiting != map[] then Some(Stored(manifest, Some(waiting)))
    else if o.deleteManifest then None
    else Some(Stored(manifest, None))
  }

  function NewStored(r: Root, b: Block, o: Options): Option<Stored>
    requires b.number in b.sizes
  {
    AfterBlock(NewManifest(r, b), StillWaiting(r, b), o)
  }

  ghost function Receive(r: Root, b: Block, o: Options): Root
    requires Arrivable(b)
  {
    Root(Some(NewContent(r, b, o.bufSize)), NewStored(r, b, o))
  }

  ghost function OutcomeOf(r: Root, b: Block): Outcome {
    var left := StillWaiting(r, b);
    if left != map[] then Waiting(|left|) else Complete(Total(b.sizes))
  }

  ghost function ReceiveAll(r: Root, bs: seq<Block>, o: Options): Root
    requires forall b | b in bs :: Arrivable(b)
  {
    if bs == [] then r
    else Receive(ReceiveAll(r, bs[..|bs| - 1], o), bs[|bs| - 1], o)
  }
}
