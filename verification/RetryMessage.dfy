/** The messages held by the retry queues, and the filter both queue drivers apply to them
    at housekeeping. */
module RetryMessage {
  import opened Sequences

  /** `id` names one put of one message; it is not part of the message the program sees.
      The optional fields are the JSON texts of the fields the duplicate key may be built from. */
  datatype Message = Message(
    id: nat,
    baseUrl: string,
    relPath: string,
    noDupe: Option<string>,
    fileOp: Option<string>,
    identity: Option<string>,
    pubTimeText: string,
    pubTime: int,
    parts: Option<string>,
    ackId: Option<nat>)

  /** The key under which a message is remembered: path, then the best available version
      identifier, then the partition if there is one. */
  function CacheKey(m: Message): string {
    var sum := if m.noDupe.Some? then m.noDupe.value
               else if m.fileOp.Some? then m.fileOp.value
               else if m.identity.Some? then m.identity.value
               else m.pubTimeText;
    m.baseUrl + "/" + m.relPath + " " + sum + (if m.parts.Some? then " " + m.parts.value else "")
  }

  // What the key tells apart.

  /** The version identifier of a message: the first that it has of the duplicate key, the file
      operation, the checksum and the publication time, which is always there. */
  ghost predicate Identifies(m: Message, id: string) {
    var found := [m.noDupe, m.fileOp, m.identity, Some(m.pubTimeText)];
    exists k :: 0 <= k < 4 && found[k] == Some(id) && forall j | 0 <= j < k :: found[j] == None
  }

  function Url(m: Message): string {
    m.baseUrl + "/" + m.relPath
  }

  ghost predicate NoSpace(s: string) {
    ' ' !in s
  }

  /** The key of a message can be taken apart: its address has no space, and neither has the partition. */
  ghost predicate Clear(m: Message) {
    NoSpace(m.baseUrl) && NoSpace(m.relPath) && (m.parts.Some? ==> NoSpace(m.parts.value))
  }

  lemma HasIdentifier(m: Message) returns (id: string)
    ensures Identifies(m, id) && forall x | Identifies(m, x) :: x == id
    ensures CacheKey(m) == Url(m) + " " + id + if m.parts.Some? then " " + m.parts.value else ""
  {
    var found := [m.noDupe, m.fileOp, m.identity, Some(m.pubTimeText)];
    var k := if m.noDupe.Some? then 0 else if m.fileOp.Some? then 1 else if m.identity.Some? then 2 else 3;
    id := found[k].value;
    assert found[k] == Some(id) && forall j | 0 <= j < k :: found[j] == None;
  }

  lemma SpaceAt(a: string, b: string)
    ensures var s := a + " " + b;
            && s[|a|] == ' ' && s[..|a|] == a && s[|a| + 1..] == b
            && (NoSpace(a) ==> forall n | 0 <= n < |a| :: s[n] != ' ')
            && (NoSpace(b) ==> forall n | |a| < n < |s| :: s[n] != ' ')
  {
    var s := a + " " + b;
    assert forall n | |a| < n < |s| :: s[n] == b[n - |a| - 1];
  }

  /** A text is cut apart at its first space in one way only, and at its last. */
  lemma OneCut(a: string, b: string, c: string, d: string)
    requires a + " " + b == c + " " + d
    requires (NoSpace(a) && NoSpace(c)) || (NoSpace(b) && NoSpace(d))
    ensures a == c && b == d
  {
    SpaceAt(a, b);
    SpaceAt(c, d);
    assert |a| == |c|;
  }

  /** The same file in the same version and the same partition. */
  ghost predicate SameVersion(a: Message, b: Message) {
    Url(a) == Url(b) && a.parts == b.parts && exists id :: Identifies(a, id) && Identifies(b, id)
  }

  /** Two messages have one key if and only if address, version identifier and partition agree, as long as
      the parts of the key can be told apart: the addresses and partitions have no space, and either both
      messages have a partition or neither has. */
  lemma KeysAgreeIff(a: Message, b: Message)
    requires Clear(a) && Clear(b) && (a.parts.Some? <==> b.parts.Some?)
    ensures CacheKey(a) == CacheKey(b) <==> SameVersion(a, b)
  {
    var i := HasIdentifier(a);
    var j := HasIdentifier(b);
    var x := if a.parts.Some? then i + " " + a.parts.value else i;
    var y := if b.parts.Some? then j + " " + b.parts.value else j;
    assert CacheKey(a) == Url(a) + " " + x && CacheKey(b) == Url(b) + " " + y;
    hide CacheKey, Identifies;
    assert NoSpace(Url(a)) && NoSpace(Url(b));
    hide Url;
    if CacheKey(a) == CacheKey(b) {
      OneCut(Url(a), x, Url(b), y);
      if a.parts.Some? {
        OneCut(i, a.parts.value, j, b.parts.value);
      }
      assert Identifies(a, i) && Identifies(b, i);
    }
  }

  /** Messages of one server and one partition: their keys agree if and only if path and identifier do. */
  lemma PathsApart(a: Message, b: Message)
    requires a.baseUrl == b.baseUrl && a.parts == b.parts && NoSpace(a.relPath) && NoSpace(b.relPath)
    ensures CacheKey(a) == CacheKey(b) <==>
              a.relPath == b.relPath && exists id :: Identifies(a, id) && Identifies(b, id)
  {
    var i := HasIdentifier(a);
    var j := HasIdentifier(b);
    hide Identifies;
    var tail := if a.parts.Some? then " " + a.parts.value else "";
    var head := a.baseUrl + "/";
    assert CacheKey(a) == head + (a.relPath + " " + i) + tail && CacheKey(b) == head + (b.relPath + " " + j) + tail;
    hide CacheKey;
    if CacheKey(a) == CacheKey(b) {
      Between(head, a.relPath + " " + i, b.relPath + " " + j, tail);
      OneCut(a.relPath, i, b.relPath, j);
      assert Identifies(a, i) && Identifies(b, i);
    }
  }

  lemma Between(head: string, x: string, y: string, tail: string)
    requires head + x + tail == head + y + tail
    ensures x == y
  {
    var s := head + x + tail;
    assert |x| == |y|;
    assert x == s[|head|..|head| + |x|] && y == s[|head|..|head| + |y|];
  }

  /** With a duplicate key the file operation, the checksum and the time do not matter; without one but
      with a file operation the other two do not; and with a checksum alone the time does not. */
  lemma LowerIgnored(m: Message, fileOp: Option<string>, identity: Option<string>, time: string)
    ensures m.noDupe.Some? ==>
              CacheKey(m.(fileOp := fileOp, identity := identity, pubTimeText := time)) == CacheKey(m)
    ensures m.noDupe.None? && m.fileOp.Some? ==>
              CacheKey(m.(identity := identity, pubTimeText := time)) == CacheKey(m)
    ensures m.noDupe.None? && m.fileOp.None? && m.identity.Some? ==> CacheKey(m.(pubTimeText := time)) == CacheKey(m)
  {
  }

  /** Messages that differ in the partition alone: their keys do too, whatever the texts are. */
  lemma PartsApart(a: Message, parts: Option<string>)
    ensures CacheKey(a) == CacheKey(a.(parts := parts)) <==> a.parts == parts
  {
    var i := HasIdentifier(a);
    var j := HasIdentifier(a.(parts := parts));
    assert i == j by { assert Identifies(a, j); }
    var head := Url(a) + " " + i;
    var x := if a.parts.Some? then " " + a.parts.value else "";
    var y := if parts.Some? then " " + parts.value else "";
    assert CacheKey(a) == head + x && CacheKey(a.(parts := parts)) == head + y;
    hide CacheKey, Identifies, Url;
    if head + x == head + y {
      assert x == (head + x)[|head|..] && y == (head + y)[|head|..];
      if a.parts.Some? && parts.Some? {
        assert a.parts.value == x[1..] && parts.value == y[1..];
      }
    }
  }

  /** Where an address has a space two files can have one key. */
  lemma SpaceConfuses(m: Message)
    ensures var a := m.(relPath := "a", noDupe := Some("b c"));
            var b := m.(relPath := "a b", noDupe := Some("c"));
            CacheKey(a) == CacheKey(b) && !SameVersion(a, b)
  {
    var a := m.(relPath := "a", noDupe := Some("b c"));
    var b := m.(relPath := "a b", noDupe := Some("c"));
    assert "a" + " " + "b c" == "a b" + " " + "c";
    assert Url(a)[|m.baseUrl| + 1..] == "a" && Url(b)[|m.baseUrl| + 1..] == "a b";
    var tail := if m.parts.Some? then " " + m.parts.value else "";
    var head := m.baseUrl + "/";
    assert CacheKey(a) == head + ("a" + " " + "b c") + tail && CacheKey(b) == head + ("a b" + " " + "c") + tail;
  }

  predicate IsExpired(m: Message, now: int, ttl: Option<int>) {
    ttl.Some? && ttl.value > 0 && now - m.pubTime > ttl.value
  }

  /** What a consumer receives: the broker tag is removed, it was acknowledged before the put. */
  function StripAck(m: Message): Message {
    m.(ackId := None)
  }

  function StripAcks(ms: seq<Message>): (r: seq<Message>)
    ensures |r| == |ms|
    ensures forall i | 0 <= i < |ms| :: r[i] == StripAck(ms[i])
  {
    seq(|ms|, i requires 0 <= i < |ms| => StripAck(ms[i]))
  }

  function Keys(ms: seq<Message>): set<string> {
    set m | m in ms :: CacheKey(m)
  }

  /** What one housekeeping keeps of the messages it reads, in order: a message whose key was
      not read before, and which is not expired.  The key is recorded before expiry is looked at. */
  function Survivors(ms: seq<Message>, now: int, ttl: Option<int>): seq<Message> {
    if ms == [] then []
    else
      var init, m := ms[..|ms| - 1], ms[|ms| - 1];
      Survivors(init, now, ttl)
      + if CacheKey(m) in Keys(init) || IsExpired(m, now, ttl) then [] else [m]
  }

  ghost predicate IsFirstOfKey(ms: seq<Message>, i: nat)
    requires i < |ms|
  {
    forall j | 0 <= j < i :: CacheKey(ms[j]) != CacheKey(ms[i])
  }

  lemma SurvivorsSnoc(ms: seq<Message>, m: Message, now: int, ttl: Option<int>)
    ensures Survivors(ms + [m], now, ttl)
         == Survivors(ms, now, ttl)
            + if CacheKey(m) in Keys(ms) || IsExpired(m, now, ttl) then [] else [m]
  {
    assert (ms + [m])[..|ms|] == ms;
  }

  lemma KeysSnoc(ms: seq<Message>, m: Message)
    ensures Keys(ms + [m]) == Keys(ms) + {CacheKey(m)}
  {
    assert forall x :: x in ms + [m] <==> x in ms || x == m;
  }

  lemma {:induction false} SurvivorsInOrder(ms: seq<Message>, now: int, ttl: Option<int>)
    ensures IsSubseq(Survivors(ms, now, ttl), ms)
  {
    if ms != [] {
      var init, m := ms[..|ms| - 1], ms[|ms| - 1];
      SurvivorsInOrder(init, now, ttl);
      SubseqSnoc(Survivors(init, now, ttl), init, m);
      assert ms == init + [m];
      assert Survivors(init, now, ttl) + [] == Survivors(init, now, ttl);
    }
  }

  /** A message is kept exactly when it is the first of its key and not expired. */
  lemma {:induction false} SurvivorsAre(ms: seq<Message>, now: int, ttl: Option<int>, m: Message)
    ensures m in Survivors(ms, now, ttl) <==>
            exists i :: 0 <= i < |ms| && ms[i] == m && IsFirstOfKey(ms, i) && !IsExpired(m, now, ttl)
  {
    if ms != [] {
      var n := |ms| - 1;
      var init := ms[..n];
      SurvivorsAre(init, now, ttl, m);
      assert CacheKey(ms[n]) in Keys(init) <==> !IsFirstOfKey(ms, n) by {
        if j :| 0 <= j < n && CacheKey(ms[j]) == CacheKey(ms[n]) {
          assert init[j] in init;
        }
      }
      forall i | 0 <= i < n ensures IsFirstOfKey(init, i) <==> IsFirstOfKey(ms, i) {
        assert forall j | 0 <= j <= i :: init[j] == ms[j];
      }
      if i :| 0 <= i < n && init[i] == m && IsFirstOfKey(init, i) && !IsExpired(m, now, ttl) {
        assert ms[i] == m && IsFirstOfKey(ms, i);
      }
    }
  }

  /** No key is kept twice. */
  lemma {:induction false} SurvivorsDistinct(ms: seq<Message>, now: int, ttl: Option<int>)
    ensures forall i, j | 0 <= i < j < |Survivors(ms, now, ttl)| ::
              CacheKey(Survivors(ms, now, ttl)[i]) != CacheKey(Survivors(ms, now, ttl)[j])
  {
    if ms != [] {
      var init := ms[..|ms| - 1];
      SurvivorsDistinct(init, now, ttl);
      forall x | x in Survivors(init, now, ttl) ensures CacheKey(x) in Keys(init) {
        SurvivorsInOrder(init, now, ttl);
        SubseqMember(Survivors(init, now, ttl), init, x);
      }
    }
  }

  /** A key with an unexpired message among those read is kept if and only if the FIRST message
      of that key is unexpired: an expired first occurrence takes later unexpired ones with it. */
  lemma KeySurvivesIff(ms: seq<Message>, now: int, ttl: Option<int>, first: nat)
    requires first < |ms| && IsFirstOfKey(ms, first)
    ensures (exists m :: m in Survivors(ms, now, ttl) && CacheKey(m) == CacheKey(ms[first]))
       <==> !IsExpired(ms[first], now, ttl)
  {
    SurvivorsAre(ms, now, ttl, ms[first]);
    if m :| m in Survivors(ms, now, ttl) && CacheKey(m) == CacheKey(ms[first]) {
      SurvivorsAre(ms, now, ttl, m);
      var i :| 0 <= i < |ms| && ms[i] == m && IsFirstOfKey(ms, i) && !IsExpired(m, now, ttl);
      assert i == first;
    }
  }

  /** The reading "one live message per key" fails: two messages of one key, the second one
      unexpired, and nothing is kept. */
  lemma UnexpiredDuplicateLost(m: Message, now: int, ttl: int)
    requires ttl > 0
    ensures var stale := m.(pubTime := now - ttl - 1, identity := Some("i"));
            var live := m.(pubTime := now, identity := Some("i"));
            && !IsExpired(live, now, Some(ttl))
            && Survivors([stale, live], now, Some(ttl)) == []
  {
    var stale := m.(pubTime := now - ttl - 1, identity := Some("i"));
    var live := m.(pubTime := now, identity := Some("i"));
    SurvivorsSnoc([], stale, now, Some(ttl));
    SurvivorsSnoc([stale], live, now, Some(ttl));
    assert [] + [stale] == [stale] && [stale] + [live] == [stale, live];
    assert stale in [stale];
  }

  /** Messages that were all kept at time `now` are still unexpired at that time. */
  lemma SurvivorsUnexpired(ms: seq<Message>, now: int, ttl: Option<int>)
    ensures forall m | m in Survivors(ms, now, ttl) :: !IsExpired(m, now, ttl)
  {
    forall m | m in Survivors(ms, now, ttl) ensures !IsExpired(m, now, ttl) {
      SurvivorsAre(ms, now, ttl, m);
    }
  }

  /** All can be taken apart, and all have a partition or none has. */
  ghost predicate AllClear(ms: seq<Message>) {
    && (forall i | 0 <= i < |ms| :: Clear(ms[i]))
    && forall i, j | 0 <= i < |ms| && 0 <= j < |ms| :: ms[i].parts.Some? <==> ms[j].parts.Some?
  }

  /** What a housekeeping keeps, in terms of the messages alone: an unexpired message that no earlier one
      announces in the same version. */
  lemma KeptVersions(ms: seq<Message>, now: int, ttl: Option<int>, m: Message)
    requires AllClear(ms)
    ensures m in Survivors(ms, now, ttl) <==>
              exists i :: 0 <= i < |ms| && ms[i] == m && !IsExpired(m, now, ttl)
                       && forall j | 0 <= j < i :: !SameVersion(ms[j], ms[i])
  {
    SurvivorsAre(ms, now, ttl, m);
    forall i, j | 0 <= j < i < |ms| ensures CacheKey(ms[j]) == CacheKey(ms[i]) <==> SameVersion(ms[j], ms[i]) {
      KeysAgreeIff(ms[j], ms[i]);
    }
    hide CacheKey, SameVersion, IsExpired, Survivors, Clear;
    forall i | 0 <= i < |ms| ensures IsFirstOfKey(ms, i) <==> forall j | 0 <= j < i :: !SameVersion(ms[j], ms[i]) {}
  }

  /** What expires: with a limit above 0, the messages published longer ago than that, and no others. */
  lemma ExpiryIs(m: Message, now: int, ttl: int)
    ensures IsExpired(m, now, Some(ttl)) <==> ttl > 0 && m.pubTime + ttl < now
    ensures !IsExpired(m, now, None)
  {
  }
}
