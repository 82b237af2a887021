/** The queue that both retry drivers implement: messages wait until a housekeeping turns a
    stretch of them into the next generation, and only a whole generation is handed out. */
module FifoQueue {
  import opened Sequences
  import opened RetryMessage

  /** `ready` can be taken now, `waiting` only after a later rotation. */
  datatype Queue = Queue(ready: seq<Message>, waiting: seq<Message>)

  const EMPTY := Queue([], [])

  datatype Action =
    | Stutter
    | Put(ms: seq<Message>)
    | Take(n: nat)
    | Rotate(k: nat, now: int)

  predicate Enabled(q: Queue, a: Action) {
    match a
    case Stutter => true
    case Put(_) => true
    case Take(n) => n <= |q.ready|
    case Rotate(k, _) => q.ready == [] && k <= |q.waiting|
  }

  function Apply(q: Queue, a: Action, ttl: Option<int>): Queue
    requires Enabled(q, a)
  {
    match a
    case Stutter => q
    case Put(ms) => q.(waiting := q.waiting + ms)
    case Take(n) => q.(ready := q.ready[n..])
    case Rotate(k, now) => Queue(Survivors(q.waiting[..k], now, ttl), q.waiting[k..])
  }

  /** A stretch of the messages put, and the time at which it was filtered. */
  datatype Generation = Generation(members: seq<Message>, now: int)

  /** Everything that was put and taken, and the generations so far, oldest first. */
  datatype History = History(puts: seq<Message>, taken: seq<Message>, gens: seq<Generation>)

  const NO_HISTORY := History([], [], [])

  function Record(h: History, q: Queue, a: Action): History
    requires Enabled(q, a)
  {
    match a
    case Stutter => h
    case Put(ms) => h.(puts := h.puts + ms)
    case Take(n) => h.(taken := h.taken + q.ready[..n])
    case Rotate(k, now) => h.(gens := h.gens + [Generation(q.waiting[..k], now)])
  }

  function Members(gens: seq<Generation>): seq<Message> {
    if gens == [] then [] else Members(gens[..|gens| - 1]) + gens[|gens| - 1].members
  }

  function Kept(gens: seq<Generation>, ttl: Option<int>): seq<Message> {
    if gens == [] then []
    else Kept(gens[..|gens| - 1], ttl) + Survivors(gens[|gens| - 1].members, gens[|gens| - 1].now, ttl)
  }

  /** The generations cut up exactly what was put, and what was taken, followed by what is
      ready, is exactly what the generations kept. */
  ghost predicate Explained(q: Queue, h: History, ttl: Option<int>) {
    && h.puts == Members(h.gens) + q.waiting
    && Kept(h.gens, ttl) == h.taken + q.ready
  }

  lemma ExplainedStep(q: Queue, h: History, a: Action, ttl: Option<int>)
    requires Explained(q, h, ttl) && Enabled(q, a)
    ensures Explained(Apply(q, a, ttl), Record(h, q, a), ttl)
  {
    match a
    case Stutter =>
    case Put(ms) =>
      assert h.puts + ms == Members(h.gens) + (q.waiting + ms);
    case Take(n) =>
      assert q.ready == q.ready[..n] + q.ready[n..];
      assert h.taken + q.ready == (h.taken + q.ready[..n]) + q.ready[n..];
    case Rotate(k, now) =>
      var g := Generation(q.waiting[..k], now);
      assert (h.gens + [g])[..|h.gens|] == h.gens;
      assert q.waiting == q.waiting[..k] + q.waiting[k..];
      assert h.puts == (Members(h.gens) + q.waiting[..k]) + q.waiting[k..];
  }

  ghost predicate CanRun(q: Queue, actions: seq<Action>, ttl: Option<int>)
    decreases |actions|
  {
    actions == [] || (Enabled(q, actions[0]) && CanRun(Apply(q, actions[0], ttl), actions[1..], ttl))
  }

  ghost function Run(q: Queue, h: History, actions: seq<Action>, ttl: Option<int>): (Queue, History)
    requires CanRun(q, actions, ttl)
    decreases |actions|
  {
    if actions == [] then (q, h)
    else Run(Apply(q, actions[0], ttl), Record(h, q, actions[0]), actions[1..], ttl)
  }

  lemma {:induction false} ExplainedRun(q: Queue, h: History, actions: seq<Action>, ttl: Option<int>)
    requires Explained(q, h, ttl) && CanRun(q, actions, ttl)
    ensures var (q', h') := Run(q, h, actions, ttl); Explained(q', h', ttl)
    decreases |actions|
  {
    if actions != [] {
      ExplainedStep(q, h, actions[0], ttl);
      ExplainedRun(Apply(q, actions[0], ttl), Record(h, q, actions[0]), actions[1..], ttl);
    }
  }

  lemma {:induction false} KeptInOrder(gens: seq<Generation>, ttl: Option<int>)
    ensures IsSubseq(Kept(gens, ttl), Members(gens))
  {
    if gens != [] {
      var init, g := gens[..|gens| - 1], gens[|gens| - 1];
      KeptInOrder(init, ttl);
      SurvivorsInOrder(g.members, g.now, ttl);
      SubseqConcat(Kept(init, ttl), Members(init), Survivors(g.members, g.now, ttl), g.members);
    }
  }

  /** Over a whole run from the empty queue: what was taken is an order-preserving subsequence
      of what was put, and generation by generation it is exactly what the filter keeps. */
  lemma FifoRun(actions: seq<Action>, ttl: Option<int>)
    requires CanRun(EMPTY, actions, ttl)
    ensures var (q, h) := Run(EMPTY, NO_HISTORY, actions, ttl);
            && IsSubseq(h.taken, h.puts)
            && Kept(h.gens, ttl) == h.taken + q.ready
            && h.puts == Members(h.gens) + q.waiting
  {
    var (q, h) := Run(EMPTY, NO_HISTORY, actions, ttl);
    ExplainedRun(EMPTY, NO_HISTORY, actions, ttl);
    KeptInOrder(h.gens, ttl);
    SubseqExtend(Kept(h.gens, ttl), Members(h.gens), q.waiting);
    SubseqPrefix(h.taken, q.ready, h.puts);
  }
}
