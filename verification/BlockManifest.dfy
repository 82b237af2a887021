/** The manifest kept beside a file that arrives in blocks. It is stored as text whose keys are
    strings, so block numbers are written in decimal and read back. */
module BlockManifest {
  import opened Sequences
  import opened Blocks
  import opened Decimals

  // Manifests as text.

  type Keyed = map<string, nat>

  datatype Text = Blank | Text(manifest: Keyed, waiting: Option<Keyed>)

  ghost function SaveKeys(m: Sizes): Keyed {
    DecimalsDistinct(m);
    map k | k in m :: Decimal(k) := m[k]
  }

  lemma DecimalsDistinct(m: Sizes)
    ensures forall j, k | j in m && k in m && Decimal(j) == Decimal(k) :: j == k
  {
    forall j, k | j in m && k in m && Decimal(j) == Decimal(k) ensures j == k {
      DecimalInjective(j, k);
    }
  }

  ghost function Save(s: Stored): Text {
    Text(SaveKeys(s.manifest), if s.waiting.Some? then Some(SaveKeys(s.waiting.value)) else None)
  }

  ghost predicate DecimalKeys(t: Keyed) {
    forall s | s in t :: IsDecimal(s)
  }

  /** `m` holds what was read from `t`: when two keys stand for one number, either may win. */
  ghost predicate LoadsKeys(t: Keyed, m: Sizes)
    requires DecimalKeys(t)
  {
    && (forall s | s in t :: ParseInt(s) in m)
    && (forall k | k in m :: Stands(t, k, m[k]))
  }

  ghost predicate Stands(t: Keyed, k: nat, size: nat)
    requires DecimalKeys(t)
  {
    exists s :: s in t && ParseInt(s) == k && t[s] == size
  }

  /** What is read back is what was written. */
  lemma KeysRoundTrip(m: Sizes, loaded: Sizes)
    requires DecimalKeys(SaveKeys(m)) && LoadsKeys(SaveKeys(m), loaded)
    ensures loaded == m
  {
    hide Decimal, ParseInt, Stands;
    forall k | k in m ensures k in loaded {
      assert Decimal(k) in SaveKeys(m);
      ParseDecimal(k);
    }
    forall k | k in loaded ensures k in m && loaded[k] == m[k] {
      StandsFor(m, k, loaded[k]);
    }
  }

  lemma StandsFor(m: Sizes, k: nat, size: nat)
    requires DecimalKeys(SaveKeys(m)) && Stands(SaveKeys(m), k, size)
    ensures k in m && m[k] == size
  {
    hide Decimal, ParseInt;
    var t := SaveKeys(m);
    var s :| s in t && ParseInt(s) == k && t[s] == size;
    var j :| j in m && Decimal(j) == s;
    SavedAt(m, j);
    ParseDecimal(j);
  }

  lemma SavedAt(m: Sizes, k: nat)
    requires k in m
    ensures Decimal(k) in SaveKeys(m) && SaveKeys(m)[Decimal(k)] == m[k]
  {
    DecimalsDistinct(m);
    hide Decimal;
  }

  lemma SavedDecimal(m: Sizes)
    ensures DecimalKeys(SaveKeys(m))
  {
    forall s | s in SaveKeys(m) ensures IsDecimal(s) {
      var k :| k in m && Decimal(k) == s;
      ParseDecimal(k);
    }
  }

  /** The conversion loop run over each part of a manifest that is read. */
  method LoadKeys(t: Keyed) returns (m: Sizes)
    requires DecimalKeys(t)
    ensures LoadsKeys(t, m)
  {
    m := map[];
    var todo := t.Keys;
    while todo != {}
      invariant todo <= t.Keys
      invariant forall s | s in t && s !in todo :: ParseInt(s) in m
      invariant forall k | k in m :: Stands(t, k, m[k])
      decreases |todo|
    {
      var s :| s in todo;
      m := m[ParseInt(s) := t[s]];
      todo := todo - {s};
    }
  }

  // The directory and the access to a manifest in it.

  /** A directory of files, with the manifest beside each. */
  class Directory {
    var files: map<string, seq<byte>>
    var manifests: map<string, Text>
    /** The whole files whose lock is held. */
    var locks: set<string>
    /** What the manifests written so far stand for. */
    ghost var stored: map<string, Stored>

    ghost predicate Valid()
      reads this`manifests, this`stored
    {
      && stored.Keys <= manifests.Keys
      && forall p | p in manifests :: manifests[p] == TextAt(stored, p)
    }

    ghost function RootAt(p: string): Root
      reads this
    {
      RootIn(files, stored, p)
    }
  }

  ghost function TextAt(stored: map<string, Stored>, p: string): Text {
    if p in stored then Save(stored[p]) else Blank
  }

  ghost function RootIn(files: map<string, seq<byte>>, stored: map<string, Stored>, p: string): Root {
    Root(if p in files then Some(files[p]) else None, if p in stored then Some(stored[p]) else None)
  }

  /** A manifest held in memory: the number of the block at hand is not written out. */
  datatype Held = Held(stored: Stored, number: Option<nat>)

  class BlockManifest {
    const dir: Directory
    const path: string
    var x: Option<Held>
    var newX: Option<Held>
    var held: bool

    ghost predicate Valid()
      reads this, dir
    {
      && dir.Valid() && held && path in dir.manifests
      && x == (if path in dir.stored then Some(Held(dir.stored[path], None)) else None)
      && (newX.Some? ==> newX.value.number.None?)
    }

    constructor (dir: Directory, path: string)
      requires dir.Valid()
      modifies dir`manifests
      ensures Valid() && this.dir == dir && this.path == path && newX == None
      ensures dir.manifests == old(dir.manifests)[path := TextAt(dir.stored, path)]
    {
      this.dir := dir;
      this.path := path;
      x := None;
      newX := None;
      held := true;
      new;
      if path in dir.manifests {
        match dir.manifests[path] {
          case Blank =>
          case Text(manifest, waiting) =>
            ghost var s := dir.stored[path];
            SavedDecimal(s.manifest);
            var m := LoadKeys(manifest);
            KeysRoundTrip(s.manifest, m);
            var w: Option<Sizes> := None;
            if waiting.Some? {
              SavedDecimal(s.waiting.value);
              var v := LoadKeys(waiting.value);
              KeysRoundTrip(s.waiting.value, v);
              w := Some(v);
            }
            x := Some(Held(Stored(m, w), None));
        }
        assert dir.manifests == dir.manifests[path := dir.manifests[path]];
      } else {
        dir.manifests := dir.manifests[path := Blank];
      }
    }

    method Get() returns (r: Option<Held>)
      requires Valid()
      ensures r == if newX.Some? then newX else x
    {
      if newX.Some? {
        r := newX;
      } else if x.Some? {
        r := x;
      } else {
        r := None;
      }
    }

    method Set(bm: Held)
      requires Valid()
      modifies `newX
      ensures Valid() && newX == Some(bm.(number := None))
    {
      newX := Some(bm);
      newX := Some(newX.value.(number := None));
    }

    /** Writes what was set, if it differs from what was read, and gives up the lock. */
    method Persist()
      requires Valid()
      modifies `held, dir`manifests, dir`stored
      ensures dir.Valid() && !held
      ensures dir.stored == if newX.Some? then old(dir.stored)[path := newX.value.stored] else old(dir.stored)
      ensures dir.manifests == old(dir.manifests)[path := TextAt(dir.stored, path)]
    {
      if newX.Some? && newX != x {
        var text := WriteOut(newX.value.stored);
        dir.manifests := dir.manifests[path := text];
        dir.stored := dir.stored[path := newX.value.stored];
      }
      held := false;
    }
  }

  /** Writing a manifest as text, one key at a time. */
  method WriteOut(s: Stored) returns (t: Text)
    ensures t == Save(s)
  {
    var m := WriteKeys(s.manifest);
    var w: Option<Keyed> := None;
    if s.waiting.Some? {
      var v := WriteKeys(s.waiting.value);
      w := Some(v);
    }
    t := Text(m, w);
  }

  lemma SaveKeysAdd(m: Sizes, k: nat, size: nat)
    requires k !in m
    ensures SaveKeys(m[k := size]) == SaveKeys(m)[Decimal(k) := size]
  {
    DecimalsDistinct(m[k := size]);
    hide Decimal;
  }

  lemma DropOne(m: Sizes, todo: set<nat>, k: nat)
    requires k in todo && todo <= m.Keys
    ensures (m - todo)[k := m[k]] == m - (todo - {k})
  {
  }

  method WriteKeys(m: Sizes) returns (t: Keyed)
    ensures t == SaveKeys(m)
  {
    t := map[];
    var todo := m.Keys;
    ghost var done: Sizes := map[];
    assert t == SaveKeys(done);
    hide Decimal, SaveKeys;
    while todo != {}
      invariant todo <= m.Keys && done == m - todo && t == SaveKeys(done)
      decreases |todo|
    {
      var k :| k in todo;
      SaveKeysAdd(done, k, m[k]);
      DropOne(m, todo, k);
      t := t[Decimal(k) := m[k]];
      todo := todo - {k};
      done := done[k := m[k]];
    }
    assert done == m;
  }
}
