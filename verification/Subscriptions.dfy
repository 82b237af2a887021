/** The list of subscriptions that a configuration builds up line by line, and the queue name each
    line resolves to. Templates may expand to anything, each time anew. */
module Subscriptions {
  import opened Sequences

  /** A binding as one text: exchange and topic. */
  type Binding = string

  /** The template is missing in entries saved by older releases. */
  datatype Entry = Entry(broker: string, name: string, template: Option<string>, bindings: seq<Binding>)

  /** A subtopic line, with the settings in force when it is read. `saved` is the content of the
      queue name file, `expanded` what the template expands to this time. */
  datatype Line = Line(broker: Option<string>, template: string, binding: Binding, instance: int,
                       saved: Option<string>, expanded: string, builtIn: string)

  predicate Same(s: Entry, broker: string, name: string) {
    s.broker == broker && s.name == name
  }

  // Adding to the list.

  predicate Takes(s: Entry, n: Entry) {
    Same(s, n.broker, n.name)
  }

  /** The loop over the entries: the list with the binding added, and whether its queue was found. */
  function Scan(subs: seq<Entry>, n: Entry): (seq<Entry>, bool)
    requires n.bindings != []
  {
    if subs == [] then ([], false)
    else
      var (r, found) := Scan(subs[..|subs| - 1], n);
      var s := subs[|subs| - 1];
      if !Takes(s, n) then (r + [s], found)
      else if found || n.bindings[0] in s.bindings then (r + [s], true)
      else (r + [s.(bindings := s.bindings + [n.bindings[0]])], true)
  }

  function Added(subs: seq<Entry>, n: Entry): seq<Entry>
    requires n.bindings != []
  {
    var (r, found) := Scan(subs, n);
    if found then r else r + [n]
  }

  /** `s` with perhaps the binding of `n` added, if it is the entry of its queue. */
  ghost predicate Extends(s: Entry, t: Entry, n: Entry)
    requires n.bindings != []
  {
    || t == s
    || (Takes(s, n) && n.bindings[0] !in s.bindings && t == s.(bindings := s.bindings + [n.bindings[0]]))
  }

  lemma {:induction false} ScanFacts(subs: seq<Entry>, n: Entry)
    requires n.bindings != []
    ensures var (r, found) := Scan(subs, n);
            && |r| == |subs|
            && (forall i | 0 <= i < |subs| :: Extends(subs[i], r[i], n))
            && (found <==> exists i :: 0 <= i < |subs| && Takes(subs[i], n))
            && (found ==> exists i :: 0 <= i < |r| && Takes(r[i], n) && n.bindings[0] in r[i].bindings)
    decreases |subs|
  {
    if subs != [] {
      var k := |subs| - 1;
      ScanFacts(subs[..k], n);
      var (r0, found0) := Scan(subs[..k], n);
      var (r, found) := Scan(subs, n);
      if found {
        if found0 {
          var i :| 0 <= i < |r0| && Takes(r0[i], n) && n.bindings[0] in r0[i].bindings;
          assert r[i] == r0[i];
          var j :| 0 <= j < k && Takes(subs[..k][j], n);
          assert Takes(subs[j], n);
        } else {
          assert Takes(r[k], n) && n.bindings[0] in r[k].bindings;
        }
      } else {
        forall i | 0 <= i < |subs| ensures !Takes(subs[i], n) {
          assert i < k ==> subs[..k][i] == subs[i];
        }
      }
    }
  }

  class SubscriptionList {
    var entries: seq<Entry>

    constructor ()
      ensures entries == []
    {
      entries := [];
    }

    method Add(n: Entry)
      requires n.bindings != []
      modifies this
      ensures entries == Added(old(entries), n)
    {
      var found := false;
      var i := 0;
      ghost var was := entries;
      assert was[..0] == [];
      while i < |entries|
        invariant 0 <= i <= |entries| == |was| && entries[i..] == was[i..]
        invariant Scan(was[..i], n) == (entries[..i], found)
      {
        var s := entries[i];
        ghost var before, found0 := entries, found;
        assert was[..i + 1][..i] == was[..i];
        assert s == entries[i..][0] == was[i];
        if s.broker == n.broker && s.name == n.name {
          var newb := n.bindings[0];
          for j := 0 to |s.bindings|
            invariant found <==> found0 || newb in s.bindings[..j]
          {
            if newb == s.bindings[j] {
              found := true;
            }
          }
          assert s.bindings[..|s.bindings|] == s.bindings;
          if !found {
            entries := entries[i := s.(bindings := s.bindings + [newb])];
            found := true;
          }
        }
        assert entries[..i + 1] == before[..i] + [entries[i]];
        i := i + 1;
      }
      assert was[..i] == was && entries[..i] == entries;
      if !found {
        entries := entries + [n];
      }
    }
  }

  // Resolving the queue name.

  /** The name an old entry gives: the first entry without a template, or with this one, decides. */
  function OldName(subs: seq<Entry>, broker: string, template: string): Option<string> {
    if subs == [] then None
    else if subs[0].template.None? then Some(subs[0].name)
    else if subs[0].broker == broker && subs[0].template.value == template then Some(subs[0].name)
    else OldName(subs[1..], broker, template)
  }

  function NewName(subs: seq<Entry>, broker: string, template: string): Option<string> {
    if subs == [] then None
    else if subs[0].broker == broker && subs[0].template == Some(template) then Some(subs[0].name)
    else NewName(subs[1..], broker, template)
  }

  function Expand(l: Line): string {
    if l.expanded != "" then l.expanded else l.builtIn
  }

  /** None when an instance other than the first finds no queue name saved, and stops. */
  function Resolve(kept: seq<Entry>, subs: seq<Entry>, broker: string, l: Line): Option<string> {
    if OldName(kept, broker, l.template).Some? then OldName(kept, broker, l.template)
    else if NewName(subs, broker, l.template).Some? then NewName(subs, broker, l.template)
    else if kept == [] && subs == [] && l.saved.Some? && l.saved.value != "" then l.saved
    else if kept == [] && subs == [] && l.instance > 1 then None
    else Some(Expand(l))
  }

  /** The first line of a configuration with no saved subscriptions: a name that is saved is the queue,
      whatever the template expands to; the program stops if and only if none is and this is not the
      first instance; and otherwise the queue is named by the expansion, or by the built-in name when
      that is empty. */
  lemma FirstResolves(broker: string, l: Line)
    ensures var saved := if l.saved.Some? then l.saved.value else "";
            && (saved != "" ==> Resolve([], [], broker, l) == Some(saved))
            && (Resolve([], [], broker, l) == None <==> saved == "" && l.instance > 1)
            && (saved == "" && l.instance <= 1 && l.expanded != "" ==> Resolve([], [], broker, l) == Some(l.expanded))
            && (saved == "" && l.instance <= 1 && l.expanded == "" ==> Resolve([], [], broker, l) == Some(l.builtIn))
  {
  }

  /** Instances that read the same saved name, and a restart that does, share one queue, whatever their
      templates expand to; and unless a name is saved, no instance but the first goes on. */
  lemma InstancesShare(broker: string, l: Line, m: Line)
    requires l.saved == m.saved && m.instance > 1 && Resolve([], [], broker, m).Some?
    ensures Resolve([], [], broker, l) == Resolve([], [], broker, m) == l.saved
  {
    FirstResolves(broker, l);
    FirstResolves(broker, m);
  }

  /** Once there is an entry or a saved subscription the saved name and the instance do not matter. */
  lemma LaterResolves(kept: seq<Entry>, subs: seq<Entry>, broker: string, l: Line, m: Line)
    requires (kept != [] || subs != []) && m == l.(saved := m.saved, instance := m.instance)
    ensures Resolve(kept, subs, broker, l) == Resolve(kept, subs, broker, m) && Resolve(kept, subs, broker, l).Some?
  {
  }

  function NewEntry(broker: string, l: Line, name: string): Entry {
    Entry(broker, name, Some(l.template), [l.binding])
  }

  /** One line: None when the program stops. */
  function Parsed(kept: seq<Entry>, subs: seq<Entry>, l: Line): Option<seq<Entry>> {
    if l.broker.None? then Some(subs)
    else
      match Resolve(kept, subs, l.broker.value, l)
      case None => None
      case Some(name) => Some(Added(subs, NewEntry(l.broker.value, l, name)))
  }

  class Config {
    const saved: seq<Entry>
    const subscriptions: SubscriptionList

    constructor (saved: seq<Entry>)
      ensures this.saved == saved && fresh(subscriptions) && subscriptions.entries == []
    {
      this.saved := saved;
      subscriptions := new SubscriptionList();
    }

    method ResolveQueueName(l: Line, broker: string) returns (r: Option<string>)
      ensures r == Resolve(saved, subscriptions.entries, broker, l)
    {
      var i := 0;
      while i < |saved|
        invariant 0 <= i <= |saved|
        invariant OldName(saved, broker, l.template) == OldName(saved[i..], broker, l.template)
      {
        var s := saved[i];
        if s.template.None? {
          return Some(s.name);
        }
        if broker == s.broker && l.template == s.template.value {
          return Some(s.name);
        }
        assert saved[i..][1..] == saved[i + 1..];
        i := i + 1;
      }
      i := 0;
      var subs := subscriptions.entries;
      while i < |subs|
        invariant 0 <= i <= |subs|
        invariant NewName(subs, broker, l.template) == NewName(subs[i..], broker, l.template)
      {
        var s := subs[i];
        if broker == s.broker && Some(l.template) == s.template {
          return Some(s.name);
        }
        assert subs[i..][1..] == subs[i + 1..];
        i := i + 1;
      }
      var queueName := "";
      if |subs| + |saved| < 1 {
        if l.saved.Some? {
          queueName := l.saved.value;
        }
        if l.instance > 1 && |queueName| < 1 {
          return None;
        }
      }
      if queueName == "" {
        queueName := l.expanded;
      }
      if queueName == "" {
        queueName := l.builtIn;
      }
      return Some(queueName);
    }

    method ParseBinding(l: Line) returns (ok: bool)
      modifies subscriptions
      ensures ok <==> Parsed(saved, old(subscriptions.entries), l).Some?
      ensures ok ==> Some(subscriptions.entries) == Parsed(saved, old(subscriptions.entries), l)
      ensures !ok ==> subscriptions.entries == old(subscriptions.entries)
    {
      if l.broker.None? {
        return true;
      }
      var name := ResolveQueueName(l, l.broker.value);
      if name.None? {
        return false;
      }
      subscriptions.Add(Entry(l.broker.value, name.value, Some(l.template), [l.binding]));
      return true;
    }
  }

  // What every list built so satisfies.

  ghost predicate DistinctQueues(subs: seq<Entry>) {
    forall i, j | 0 <= i < j < |subs| :: !(subs[i].broker == subs[j].broker && subs[i].name == subs[j].name)
  }

  ghost predicate DistinctTemplates(subs: seq<Entry>) {
    forall i, j | 0 <= i < j < |subs| :: !(subs[i].broker == subs[j].broker && subs[i].template == subs[j].template)
  }

  ghost predicate DistinctBindings(s: Entry) {
    forall i, j | 0 <= i < j < |s.bindings| :: s.bindings[i] != s.bindings[j]
  }

  /** Every entry has a template, under the name that the saved entries give it if they do. */
  ghost predicate Grounded(kept: seq<Entry>, s: Entry) {
    && s.template.Some?
    && (OldName(kept, s.broker, s.template.value).Some? ==> OldName(kept, s.broker, s.template.value) == Some(s.name))
  }

  ghost predicate Inv(kept: seq<Entry>, subs: seq<Entry>) {
    && DistinctQueues(subs) && DistinctTemplates(subs)
    && (forall i | 0 <= i < |subs| :: DistinctBindings(subs[i]) && Grounded(kept, subs[i]))
  }

  ghost predicate Bound(subs: seq<Entry>, broker: string, name: string, b: Binding) {
    exists i :: 0 <= i < |subs| && Same(subs[i], broker, name) && b in subs[i].bindings
  }

  lemma {:induction false} NewNameIs(subs: seq<Entry>, broker: string, template: string)
    ensures match NewName(subs, broker, template)
            case None => forall i | 0 <= i < |subs| :: !(subs[i].broker == broker && subs[i].template == Some(template))
            case Some(name) =>
              exists i :: 0 <= i < |subs| && Same(subs[i], broker, name) && subs[i].template == Some(template)
    decreases |subs|
  {
    if subs != [] {
      NewNameIs(subs[1..], broker, template);
      var n := NewName(subs[1..], broker, template);
      if subs[0].broker == broker && subs[0].template == Some(template) {
        assert Same(subs[0], broker, subs[0].name);
      } else if n.Some? {
        var i :| 0 <= i < |subs[1..]| && Same(subs[1..][i], broker, n.value) && subs[1..][i].template == Some(template);
        assert Same(subs[i + 1], broker, n.value);
      } else {
        forall i | 0 <= i < |subs| ensures !(subs[i].broker == broker && subs[i].template == Some(template)) {
          assert i > 0 ==> subs[1..][i - 1] == subs[i];
        }
      }
    }
  }

  /** The saved entry decides: it bears the broker and template, or no template. */
  ghost predicate Decides(s: Entry, broker: string, template: string) {
    s.template.None? || (s.broker == broker && s.template == Some(template))
  }

  /** A saved name is that of the first entry that decides; an entry without a template, as older releases
      left it, does so whatever its broker. */
  lemma {:induction false} OldNameIs(kept: seq<Entry>, broker: string, template: string)
    ensures match OldName(kept, broker, template)
            case None => forall i | 0 <= i < |kept| :: !Decides(kept[i], broker, template)
            case Some(name) =>
              exists i :: 0 <= i < |kept| && Decides(kept[i], broker, template) && kept[i].name == name
                       && forall j | 0 <= j < i :: !Decides(kept[j], broker, template)
    decreases |kept|
  {
    if kept != [] && !Decides(kept[0], broker, template) {
      OldNameIs(kept[1..], broker, template);
      var n := OldName(kept[1..], broker, template);
      if n.Some? {
        var i :| 0 <= i < |kept[1..]| && Decides(kept[1..][i], broker, template) && kept[1..][i].name == n.value
                 && forall j | 0 <= j < i :: !Decides(kept[1..][j], broker, template);
        forall j | 0 <= j < i + 1 ensures !Decides(kept[j], broker, template) {
          assert j > 0 ==> kept[j] == kept[1..][j - 1];
        }
        assert kept[i + 1].name == n.value;
      } else {
        forall i | 0 <= i < |kept| ensures !Decides(kept[i], broker, template) {
          assert i > 0 ==> kept[i] == kept[1..][i - 1];
        }
      }
    }
  }

  /** A new entry is added only when no entry has its queue; then none has its template either. */
  lemma NoTemplate(kept: seq<Entry>, subs: seq<Entry>, broker: string, l: Line, name: string, i: nat)
    requires Inv(kept, subs) && Resolve(kept, subs, broker, l) == Some(name)
    requires i < |subs| && subs[i].broker == broker && subs[i].template == Some(l.template)
    ensures Takes(subs[i], NewEntry(broker, l, name))
  {
    NewNameIs(subs, broker, l.template);
    assert Grounded(kept, subs[i]);
    if OldName(kept, broker, l.template).None? {
      assert subs[i].broker == broker && subs[i].template == Some(l.template);
      var j :| 0 <= j < |subs| && Same(subs[j], broker, name) && subs[j].template == Some(l.template);
      assert i == j;
    }
  }

  lemma ExtendsKeeps(kept: seq<Entry>, s: Entry, t: Entry, n: Entry)
    requires n.bindings != [] && Extends(s, t, n) && DistinctBindings(s) && Grounded(kept, s)
    ensures DistinctBindings(t) && Grounded(kept, t)
    ensures t.broker == s.broker && t.name == s.name && t.template == s.template
  {
  }

  /** One line keeps the list in order. */
  lemma LineKeeps(kept: seq<Entry>, subs: seq<Entry>, l: Line)
    requires Inv(kept, subs) && Parsed(kept, subs, l).Some?
    ensures Inv(kept, Parsed(kept, subs, l).value)
  {
    if l.broker.Some? {
      var broker := l.broker.value;
      var name := Resolve(kept, subs, broker, l).value;
      var n := NewEntry(broker, l, name);
      var (r, found) := Scan(subs, n);
      ScanFacts(subs, n);
      forall i | 0 <= i < |r|
        ensures DistinctBindings(r[i]) && Grounded(kept, r[i])
        ensures r[i].broker == subs[i].broker && r[i].name == subs[i].name && r[i].template == subs[i].template
      {
        ExtendsKeeps(kept, subs[i], r[i], n);
      }
      hide Scan, Resolve, OldName, Grounded;
      if !found {
        assert Grounded(kept, n) by { NewGrounded(kept, subs, broker, l, name); }
        forall i | 0 <= i < |subs| ensures !(subs[i].broker == broker && subs[i].template == Some(l.template)) {
          if subs[i].broker == broker && subs[i].template == Some(l.template) {
            NoTemplate(kept, subs, broker, l, name, i);
          }
        }
        forall i | 0 <= i < |subs| ensures !(subs[i].broker == broker && subs[i].name == name) {
          assert !Takes(subs[i], n);
        }
      }
    }
  }

  lemma NewGrounded(kept: seq<Entry>, subs: seq<Entry>, broker: string, l: Line, name: string)
    requires Resolve(kept, subs, broker, l) == Some(name)
    ensures Grounded(kept, NewEntry(broker, l, name))
  {
  }

  /** After a line, its binding is in the entry of the queue it resolved to, and no binding that
      was there is gone. */
  lemma LineBinds(kept: seq<Entry>, subs: seq<Entry>, l: Line)
    requires l.broker.Some? && Parsed(kept, subs, l).Some?
    ensures Bound(Parsed(kept, subs, l).value, l.broker.value, Resolve(kept, subs, l.broker.value, l).value, l.binding)
  {
    var name := Resolve(kept, subs, l.broker.value, l).value;
    var n := NewEntry(l.broker.value, l, name);
    var (r, found) := Scan(subs, n);
    ScanFacts(subs, n);
    if !found {
      assert Same((r + [n])[|r|], l.broker.value, name);
    }
  }

  lemma LineForgetsNothing(kept: seq<Entry>, subs: seq<Entry>, l: Line, broker: string, name: string, b: Binding)
    requires Parsed(kept, subs, l).Some? && Bound(subs, broker, name, b)
    ensures Bound(Parsed(kept, subs, l).value, broker, name, b)
  {
    if l.broker.Some? {
      var n := NewEntry(l.broker.value, l, Resolve(kept, subs, l.broker.value, l).value);
      var (r, found) := Scan(subs, n);
      ScanFacts(subs, n);
      var i :| 0 <= i < |subs| && Same(subs[i], broker, name) && b in subs[i].bindings;
      assert Extends(subs[i], r[i], n);
      assert Same(Parsed(kept, subs, l).value[i], broker, name);
    }
  }

  // Runs.

  ghost function ParseAll(kept: seq<Entry>, ls: seq<Line>): Option<seq<Entry>> {
    if ls == [] then Some([])
    else
      match ParseAll(kept, ls[..|ls| - 1])
      case None => None
      case Some(subs) => Parsed(kept, subs, ls[|ls| - 1])
  }

  /** For any lines, any expansions and any saved entries: at most one entry per queue, at most one
      per template, no binding repeated in an entry. */
  lemma {:induction false} AllInOrder(kept: seq<Entry>, ls: seq<Line>)
    requires ParseAll(kept, ls).Some?
    ensures Inv(kept, ParseAll(kept, ls).value)
  {
    if ls != [] {
      var n := |ls| - 1;
      AllInOrder(kept, ls[..n]);
      LineKeeps(kept, ParseAll(kept, ls[..n]).value, ls[n]);
    }
  }

  /** And the binding of every line is, in the end, in the entry of the queue the line resolved to. */
  lemma {:induction false} AllBound(kept: seq<Entry>, ls: seq<Line>, i: nat)
    requires ParseAll(kept, ls).Some? && i < |ls| && ls[i].broker.Some?
    ensures ParseAll(kept, ls[..i]).Some?
    ensures Resolve(kept, ParseAll(kept, ls[..i]).value, ls[i].broker.value, ls[i]).Some?
    ensures Bound(ParseAll(kept, ls).value, ls[i].broker.value,
                  Resolve(kept, ParseAll(kept, ls[..i]).value, ls[i].broker.value, ls[i]).value, ls[i].binding)
    decreases |ls|
  {
    var n := |ls| - 1;
    var subs := ParseAll(kept, ls[..n]).value;
    if i == n {
      LineBinds(kept, subs, ls[n]);
    } else {
      AllBound(kept, ls[..n], i);
      assert ls[..n][..i] == ls[..i];
      var name := Resolve(kept, ParseAll(kept, ls[..i]).value, ls[i].broker.value, ls[i]).value;
      LineForgetsNothing(kept, subs, ls[n], ls[i].broker.value, name, ls[i].binding);
    }
  }

  // Whether a template keeps its queue.

  ghost predicate Known(kept: seq<Entry>, subs: seq<Entry>, broker: string, template: string) {
    OldName(kept, broker, template).Some? || NewName(subs, broker, template).Some?
  }

  ghost predicate Taken(subs: seq<Entry>, broker: string, name: string) {
    exists i :: 0 <= i < |subs| && Same(subs[i], broker, name)
  }

  /** The list after further lines. */
  ghost function ParseFrom(kept: seq<Entry>, subs: seq<Entry>, ls: seq<Line>): Option<seq<Entry>> {
    if ls == [] then Some(subs)
    else
      match ParseFrom(kept, subs, ls[..|ls| - 1])
      case None => None
      case Some(before) => Parsed(kept, before, ls[|ls| - 1])
  }

  /** `template` resolves to `name` by an entry, so that nothing is expanded. */
  ghost predicate Settled(kept: seq<Entry>, subs: seq<Entry>, broker: string, template: string, name: string) {
    || OldName(kept, broker, template) == Some(name)
    || (OldName(kept, broker, template).None? && NewName(subs, broker, template) == Some(name))
  }

  /** A line changes no name under which another template, or its own, is entered. */
  lemma LineSettles(kept: seq<Entry>, subs: seq<Entry>, l: Line, broker: string, template: string, name: string)
    requires Inv(kept, subs) && Parsed(kept, subs, l).Some? && Settled(kept, subs, broker, template, name)
    ensures Settled(kept, Parsed(kept, subs, l).value, broker, template, name)
  {
    hide Scan, Resolve, OldName, NewName, Grounded, DistinctBindings;
    if l.broker.Some? && OldName(kept, broker, template).None? {
      var n := NewEntry(l.broker.value, l, Resolve(kept, subs, l.broker.value, l).value);
      var after := Parsed(kept, subs, l).value;
      var (r, found) := Scan(subs, n);
      ScanFacts(subs, n);
      NewNameIs(subs, broker, template);
      NewNameIs(after, broker, template);
      LineKeeps(kept, subs, l);
      var i :| 0 <= i < |subs| && Same(subs[i], broker, name) && subs[i].template == Some(template);
      assert Extends(subs[i], r[i], n);
      assert Same(after[i], broker, name) && after[i].template == Some(template);
    }
  }

  lemma {:induction false} LinesSettle(kept: seq<Entry>, subs: seq<Entry>, ls: seq<Line>,
                                       broker: string, template: string, name: string)
    requires Inv(kept, subs) && ParseFrom(kept, subs, ls).Some? && Settled(kept, subs, broker, template, name)
    ensures Inv(kept, ParseFrom(kept, subs, ls).value)
    ensures Settled(kept, ParseFrom(kept, subs, ls).value, broker, template, name)
  {
    if ls != [] {
      var n := |ls| - 1;
      LinesSettle(kept, subs, ls[..n], broker, template, name);
      LineKeeps(kept, ParseFrom(kept, subs, ls[..n]).value, ls[n]);
      LineSettles(kept, ParseFrom(kept, subs, ls[..n]).value, ls[n], broker, template, name);
      hide Inv, Settled, Parsed;
    }
  }

  /** After a line and any further lines, every line with its broker and template resolves to the same
      queue, whatever the expansion, if and only if the template was known before, or the name it
      resolved to was not that of an entry with another template. */
  lemma KeepsQueueIff(kept: seq<Entry>, subs: seq<Entry>, l: Line)
    requires Inv(kept, subs) && l.broker.Some? && Parsed(kept, subs, l).Some?
    ensures var broker, name := l.broker.value, Resolve(kept, subs, l.broker.value, l).value;
            var after := Parsed(kept, subs, l).value;
            (forall ls: seq<Line>, m: Line | m.template == l.template && ParseFrom(kept, after, ls).Some? ::
               Resolve(kept, ParseFrom(kept, after, ls).value, broker, m) == Some(name))
            <==> Known(kept, subs, broker, l.template) || !Taken(subs, broker, name)
  {
    var broker, name := l.broker.value, Resolve(kept, subs, l.broker.value, l).value;
    var after := Parsed(kept, subs, l).value;
    LineKeeps(kept, subs, l);
    NextLineIff(kept, subs, l);
    if Known(kept, subs, broker, l.template) || !Taken(subs, broker, name) {
      KnownAfter(kept, subs, l);
      forall ls: seq<Line>, m: Line | m.template == l.template && ParseFrom(kept, after, ls).Some?
        ensures Resolve(kept, ParseFrom(kept, after, ls).value, broker, m) == Some(name)
      {
        LinesSettle(kept, after, ls, broker, l.template, name);
        SettledResolves(kept, ParseFrom(kept, after, ls).value, broker, m, name);
      }
    } else {
      assert ParseFrom(kept, after, []) == Some(after);
      var m: Line :| m.template == l.template && Resolve(kept, after, broker, m) != Some(name);
      assert Resolve(kept, ParseFrom(kept, after, []).value, broker, m) != Some(name);
    }
  }

  lemma SettledResolves(kept: seq<Entry>, subs: seq<Entry>, broker: string, m: Line, name: string)
    requires Settled(kept, subs, broker, m.template, name)
    ensures Resolve(kept, subs, broker, m) == Some(name)
  {
  }

  /** The same for the line read directly afterwards. */
  lemma NextLineIff(kept: seq<Entry>, subs: seq<Entry>, l: Line)
    requires Inv(kept, subs) && l.broker.Some? && Parsed(kept, subs, l).Some?
    ensures var broker, name := l.broker.value, Resolve(kept, subs, l.broker.value, l).value;
            (forall m: Line | m.template == l.template ::
               Resolve(kept, Parsed(kept, subs, l).value, broker, m) == Some(name))
            <==> Known(kept, subs, broker, l.template) || !Taken(subs, broker, name)
  {
    var broker, name := l.broker.value, Resolve(kept, subs, l.broker.value, l).value;
    var n := NewEntry(broker, l, name);
    var after := Parsed(kept, subs, l).value;
    var (r, found) := Scan(subs, n);
    ScanFacts(subs, n);
    NewNameIs(subs, broker, l.template);
    NewNameIs(after, broker, l.template);
    LineKeeps(kept, subs, l);
    if Known(kept, subs, broker, l.template) || !Taken(subs, broker, name) {
      KnownAfter(kept, subs, l);
    } else {
      var m := l.(expanded := name + "x");
      assert Takes(subs[0], n) || |subs| > 0;
      NotKnownAfter(kept, subs, l);
      assert Resolve(kept, after, broker, m) != Some(name);
    }
  }

  lemma KnownAfter(kept: seq<Entry>, subs: seq<Entry>, l: Line)
    requires Inv(kept, subs) && l.broker.Some? && Parsed(kept, subs, l).Some?
    requires Known(kept, subs, l.broker.value, l.template)
             || !Taken(subs, l.broker.value, Resolve(kept, subs, l.broker.value, l).value)
    ensures var broker, name := l.broker.value, Resolve(kept, subs, l.broker.value, l).value;
            var after := Parsed(kept, subs, l).value;
            Settled(kept, after, broker, l.template, name)
  {
    var broker, name := l.broker.value, Resolve(kept, subs, l.broker.value, l).value;
    if OldName(kept, broker, l.template).None? {
      var n := NewEntry(broker, l, name);
      var after := Parsed(kept, subs, l).value;
      var (r, found) := Scan(subs, n);
      ScanFacts(subs, n);
      NewNameIs(subs, broker, l.template);
      NewNameIs(after, broker, l.template);
      LineKeeps(kept, subs, l);
      var k;
      if found {
        assert Taken(subs, broker, name);
        k :| 0 <= k < |subs| && Same(subs[k], broker, name) && subs[k].template == Some(l.template);
        assert Extends(subs[k], r[k], n);
      } else {
        k := |r|;
      }
      assert after[k].broker == broker && after[k].name == name && after[k].template == Some(l.template);
    }
  }

  lemma NotKnownAfter(kept: seq<Entry>, subs: seq<Entry>, l: Line)
    requires Inv(kept, subs) && l.broker.Some? && Parsed(kept, subs, l).Some?
    requires !Known(kept, subs, l.broker.value, l.template)
             && Taken(subs, l.broker.value, Resolve(kept, subs, l.broker.value, l).value)
    ensures !Known(kept, Parsed(kept, subs, l).value, l.broker.value, l.template)
    ensures Parsed(kept, subs, l).value != []
  {
    var broker, name := l.broker.value, Resolve(kept, subs, l.broker.value, l).value;
    var n := NewEntry(broker, l, name);
    var after := Parsed(kept, subs, l).value;
    var (r, found) := Scan(subs, n);
    ScanFacts(subs, n);
    NewNameIs(subs, broker, l.template);
    NewNameIs(after, broker, l.template);
    var k :| 0 <= k < |subs| && Same(subs[k], broker, name);
    assert Takes(subs[k], n);
    assert after == r;
    forall i | 0 <= i < |r| ensures !(r[i].broker == broker && r[i].template == Some(l.template)) {
      assert Extends(subs[i], r[i], n);
    }
  }

  /** After a restart with the list saved, every template that has an entry resolves to the queue of that
      entry, whatever it expands to now, whatever was parsed before, and in every instance. */
  lemma RestartKeepsQueue(before: seq<Entry>, kept: seq<Entry>, subs: seq<Entry>, i: nat, l: Line)
    requires Inv(before, kept) && i < |kept| && kept[i].template == Some(l.template)
    ensures Resolve(kept, subs, kept[i].broker, l) == Some(kept[i].name)
  {
    OldNameIs(kept, kept[i].broker, l.template);
    assert Decides(kept[i], kept[i].broker, l.template);
    assert forall j | 0 <= j < |kept| :: Grounded(before, kept[j]);
    var j :| 0 <= j < |kept| && Decides(kept[j], kept[i].broker, l.template)
             && OldName(kept, kept[i].broker, l.template) == Some(kept[j].name);
    assert i == j;
  }

  /** Two templates that once expand to the same name: the second one's next line goes to another
      queue. */
  lemma TwoQueues()
    ensures var a := Line(Some("b"), "t", "x", 0, None, "q", "d");
            var c := Line(Some("b"), "u", "y", 0, None, "q", "d");
            var d := Line(Some("b"), "u", "z", 0, None, "r", "d");
            && ParseAll([], [a, c]).Some?
            && Resolve([], ParseAll([], [a]).value, "b", c) == Some("q")
            && Resolve([], ParseAll([], [a, c]).value, "b", d) == Some("r")
  {
    var a := Line(Some("b"), "t", "x", 0, None, "q", "d");
    var c := Line(Some("b"), "u", "y", 0, None, "q", "d");
    var first, both := Entry("b", "q", Some("t"), ["x"]), Entry("b", "q", Some("t"), ["x", "y"]);
    FirstLine(a, first);
    SecondLine(a, c, first, both);
    assert [both][1..] == [];
    hide Scan, ParseAll, Parsed;
  }

  lemma FirstLine(a: Line, first: Entry)
    requires a == Line(Some("b"), "t", "x", 0, None, "q", "d") && first == Entry("b", "q", Some("t"), ["x"])
    ensures ParseAll([], [a]) == Some([first])
    ensures Resolve([], [first], "b", Line(Some("b"), "u", "y", 0, None, "q", "d")) == Some("q")
  {
    assert [a][..0] == [] && [first][1..] == [];
    assert Scan([], NewEntry("b", a, "q")) == ([], false);
    assert Added([], NewEntry("b", a, "q")) == [first];
  }

  lemma ScanSingle(s: Entry, n: Entry)
    requires n.bindings != [] && Takes(s, n) && n.bindings[0] !in s.bindings
    ensures Added([s], n) == [s.(bindings := s.bindings + [n.bindings[0]])]
  {
    assert [s][..0] == [];
    assert Scan([s][..0], n) == ([], false);
    var (r, found) := Scan([s], n);
    assert found && r == [] + [s.(bindings := s.bindings + [n.bindings[0]])];
  }

  lemma SecondLine(a: Line, c: Line, first: Entry, both: Entry)
    requires c == Line(Some("b"), "u", "y", 0, None, "q", "d") && first == Entry("b", "q", Some("t"), ["x"])
    requires both == Entry("b", "q", Some("t"), ["x", "y"])
    requires ParseAll([], [a]) == Some([first]) && Resolve([], [first], "b", c) == Some("q")
    ensures ParseAll([], [a, c]) == Some([both])
  {
    assert "y"[0] != "x"[0];
    ScanSingle(first, NewEntry("b", c, "q"));
    assert first.bindings + ["y"] == ["x", "y"];
    assert [a, c][..1] == [a];
    hide Scan, Added, Resolve;
  }
}
