/** The exchanges, queues and bindings that `setup` declares, and where they send a published and a rejected message.
    Every process runs `setup` before it publishes or consumes; runs may fail anywhere and overlap. */
module Topology {
  const EXCHANGE := "lab.imports"
  const QUEUE := "lab.imports.process"
  const KEY := "import.requested"
  const DEAD_EXCHANGE := "lab.imports.dlx"
  const DEAD_QUEUE := "lab.imports.dead_letter"
  const DEAD_KEY := "import.dead_letter"

  datatype Arguments = Plain | DeadLettering(exchange: string, key: string)

  datatype Binding = Binding(exchange: string, key: string, queue: string)

  /** All exchanges are direct, and everything is durable. */
  datatype Declared = Declared(exchanges: set<string>, queues: map<string, Arguments>, bindings: set<Binding>)

  /** The queues a message published with `key` enters; with none it is dropped, and confirmed all the same. */
  function Route(d: Declared, exchange: string, key: string): set<string> {
    if exchange in d.exchanges
    then set b | b in d.bindings && b.exchange == exchange && b.key == key && b.queue in d.queues :: b.queue
    else {}
  }

  /** Where a message of `queue` goes when it is rejected without requeueing. */
  function DeadRoute(d: Declared, queue: string): set<string> {
    if queue in d.queues && d.queues[queue].DeadLettering?
    then Route(d, d.queues[queue].exchange, d.queues[queue].key)
    else {}
  }

  const MAIN_BINDING := Binding(EXCHANGE, KEY, QUEUE)
  const DEAD_BINDING := Binding(DEAD_EXCHANGE, DEAD_KEY, DEAD_QUEUE)
  const ARGUMENTS := DeadLettering(DEAD_EXCHANGE, DEAD_KEY)

  const COMPLETE := Declared({EXCHANGE, DEAD_EXCHANGE}, map[QUEUE := ARGUMENTS, DEAD_QUEUE := Plain],
      {MAIN_BINDING, DEAD_BINDING})

  /** Nothing but what `setup` declares, possibly not all of it; nothing is bound that is not there. */
  ghost predicate Partial(d: Declared) {
    && d.exchanges <= COMPLETE.exchanges && d.bindings <= COMPLETE.bindings
    && (forall q :: q in d.queues ==> q in COMPLETE.queues && d.queues[q] == COMPLETE.queues[q])
    && (forall b :: b in d.bindings ==> b.exchange in d.exchanges && b.queue in d.queues)
  }

  /** Nothing is ever removed. */
  ghost predicate Grows(d: Declared, e: Declared) {
    d.exchanges <= e.exchanges && d.bindings <= e.bindings
        && (forall q :: q in d.queues ==> q in e.queues && e.queues[q] == d.queues[q])
  }

  lemma GrownComplete(d: Declared)
    requires Grows(COMPLETE, d) && Partial(d)
    ensures d == COMPLETE
  {
    assert d.queues.Keys == COMPLETE.queues.Keys;
    assert forall q :: q in d.queues ==> d.queues[q] == COMPLETE.queues[q];
  }

  /** Where messages go in every partly declared state. A published message reaches the process queue, and it alone,
      exactly once that queue is bound; a rejected one reaches the dead-letter queue, and it alone, exactly once the
      process queue exists and the dead-letter queue is bound. */
  lemma RoutesIff(d: Declared)
    requires Partial(d)
    ensures Route(d, EXCHANGE, KEY) == {QUEUE} <==> MAIN_BINDING in d.bindings
    ensures Route(d, EXCHANGE, KEY) == {} <==> MAIN_BINDING !in d.bindings
    ensures DeadRoute(d, QUEUE) == {DEAD_QUEUE} <==> QUEUE in d.queues && DEAD_BINDING in d.bindings
    ensures DeadRoute(d, QUEUE) == {} <==> !(QUEUE in d.queues && DEAD_BINDING in d.bindings)
    ensures DeadRoute(d, DEAD_QUEUE) == {}
  {
    KeysDiffer();
    OneRoute(d, EXCHANGE, KEY, MAIN_BINDING);
    OneRoute(d, DEAD_EXCHANGE, DEAD_KEY, DEAD_BINDING);
  }

  lemma KeysDiffer()
    ensures EXCHANGE != DEAD_EXCHANGE && QUEUE != DEAD_QUEUE && KEY != DEAD_KEY
  {
    assert |EXCHANGE| != |DEAD_EXCHANGE| && |QUEUE| != |DEAD_QUEUE| && |KEY| != |DEAD_KEY|;
  }

  lemma OneRoute(d: Declared, exchange: string, key: string, b: Binding)
    requires Partial(d) && b.exchange == exchange && b.key == key
    requires forall c :: c in d.bindings && c.exchange == exchange && c.key == key ==> c == b
    ensures Route(d, exchange, key) == if b in d.bindings then {b.queue} else {}
  {
  }

  // ---------------------------------------------------------------- the code

  datatype Operation =
    | ExchangeDeclare(exchange: string)
    | QueueDeclare(queue: string, arguments: Arguments)
    | QueueBind(binding: Binding)

  /** The declarations of `setup`, in their order. */
  const OPERATIONS: seq<Operation> := [
    ExchangeDeclare(EXCHANGE), ExchangeDeclare(DEAD_EXCHANGE),
    QueueDeclare(QUEUE, ARGUMENTS), QueueBind(MAIN_BINDING),
    QueueDeclare(DEAD_QUEUE, Plain), QueueBind(DEAD_BINDING)
  ]

  /** What the broker makes of a declaration; it refuses to change a queue's arguments or to bind what is missing. */
  function Perform(d: Declared, op: Operation): (Declared, bool) {
    match op
    case ExchangeDeclare(x) => (d.(exchanges := d.exchanges + {x}), true)
    case QueueDeclare(q, arguments) =>
      if q in d.queues && d.queues[q] != arguments then (d, false) else (d.(queues := d.queues[q := arguments]), true)
    case QueueBind(b) =>
      if b.exchange in d.exchanges && b.queue in d.queues then (d.(bindings := d.bindings + {b}), true) else (d, false)
  }

  ghost predicate Has(d: Declared, op: Operation) {
    match op
    case ExchangeDeclare(x) => x in d.exchanges
    case QueueDeclare(q, arguments) => q in d.queues && d.queues[q] == arguments
    case QueueBind(b) => b in d.bindings
  }

  ghost predicate HasFirst(d: Declared, n: nat)
    requires n <= |OPERATIONS|
  {
    forall i :: 0 <= i < n ==> Has(d, OPERATIONS[i])
  }

  lemma PerformEffect(d: Declared, i: nat)
    requires Partial(d) && i < |OPERATIONS|
    ensures Partial(Perform(d, OPERATIONS[i]).0) && Grows(d, Perform(d, OPERATIONS[i]).0)
    ensures Perform(d, OPERATIONS[i]).1 ==> Has(Perform(d, OPERATIONS[i]).0, OPERATIONS[i])
    ensures HasFirst(d, i) ==> Perform(d, OPERATIONS[i]).1
  {
    KeysDiffer();
    if HasFirst(d, i) && OPERATIONS[i].QueueBind? {
      assert Has(d, OPERATIONS[0]) && Has(d, OPERATIONS[1]) && Has(d, OPERATIONS[2]);
      assert i == 5 ==> Has(d, OPERATIONS[4]);
    }
  }

  lemma StillHas(d: Declared, e: Declared, n: nat)
    requires n <= |OPERATIONS| && HasFirst(d, n) && Grows(d, e)
    ensures HasFirst(e, n)
  {
    forall i | 0 <= i < n
      ensures Has(e, OPERATIONS[i])
    {
      assert Has(d, OPERATIONS[i]);
    }
  }

  lemma HasAll(d: Declared)
    requires Partial(d) && HasFirst(d, |OPERATIONS|)
    ensures d == COMPLETE
  {
    assert Has(d, OPERATIONS[0]) && Has(d, OPERATIONS[1]) && Has(d, OPERATIONS[2]);
    assert Has(d, OPERATIONS[3]) && Has(d, OPERATIONS[4]) && Has(d, OPERATIONS[5]);
    assert d.queues.Keys == COMPLETE.queues.Keys;
    assert forall q :: q in d.queues ==> d.queues[q] == COMPLETE.queues[q];
  }

  class Broker {
    var declared: Declared

    constructor ()
      ensures Partial(declared)
    {
      declared := Declared({}, map[], {});
    }

    /** Other processes in their own `setup`. */
    method Others()
      requires Partial(declared)
      modifies this
      ensures Partial(declared) && Grows(old(declared), declared)
    {
      var more: nat := *;
      while more > 0
        invariant Partial(declared) && Grows(old(declared), declared)
      {
        var i: int := *;
        if 0 <= i < |OPERATIONS| {
          var (next, _) := Perform(declared, OPERATIONS[i]);
          PerformEffect(declared, i);
          declared := next;
        }
        more := more - 1;
      }
    }

    /** One declaration; it may take effect and be reported as an error, or not take effect at all. */
    method Declare(i: nat) returns (ok: bool)
      requires Partial(declared) && i < |OPERATIONS|
      modifies this
      ensures Partial(declared) && Grows(old(declared), declared) && (ok ==> Has(declared, OPERATIONS[i]))
    {
      Others();
      var reaches: bool, reported: bool := *, *;
      ok := false;
      if reaches {
        PerformEffect(declared, i);
        var (next, accepted) := Perform(declared, OPERATIONS[i]);
        declared := next;
        ok := accepted && reported;
      }
    }

    /** `setup`: it succeeds only if everything is in place, whatever other processes declare meanwhile. */
    method Setup() returns (ok: bool)
      requires Partial(declared)
      modifies this
      ensures Partial(declared) && Grows(old(declared), declared)
      ensures ok ==> declared == COMPLETE
    {
      var i := 0;
      while i < |OPERATIONS|
        invariant 0 <= i <= |OPERATIONS| && Partial(declared) && Grows(old(declared), declared) && HasFirst(declared, i)
      {
        ghost var before := declared;
        ok := Declare(i);
        if !ok {
          return;
        }
        StillHas(before, declared, i);
        i := i + 1;
      }
      HasAll(declared);
      // Prefetch and confirm mode concern the channel alone, and may fail too.
      ok := *;
    }
  }

  // ---------------------------------------------------------------- any interleaving of setups

  /** What is declared, and how many declarations each process has behind it. */
  datatype Setups = Setups(declared: Declared, done: map<nat, nat>)

  function DoneBy(s: Setups, p: nat): nat { if p in s.done then s.done[p] else 0 }

  /** A declaration of process `p`: it takes effect or not, is reported or not, and an error makes `p` start over. */
  datatype Attempt = Attempt(p: nat, reaches: bool, reported: bool)

  function After(s: Setups, a: Attempt): Setups {
    if DoneBy(s, a.p) >= |OPERATIONS| then s
    else
      var (next, accepted) := Perform(s.declared, OPERATIONS[DoneBy(s, a.p)]);
      if !a.reaches then s.(done := s.done[a.p := 0])
      else Setups(next, s.done[a.p := if accepted && a.reported then DoneBy(s, a.p) + 1 else 0])
  }

  ghost predicate Run(states: seq<Setups>, attempts: seq<Attempt>) {
    && |states| == |attempts| + 1 && Partial(states[0].declared) && states[0].done == map[]
    && forall n :: 0 <= n < |attempts| ==> states[n + 1] == After(states[n], attempts[n])
  }

  ghost predicate SetupsOk(s: Setups) {
    Partial(s.declared) && forall p :: DoneBy(s, p) <= |OPERATIONS| && HasFirst(s.declared, DoneBy(s, p))
  }

  lemma OneMoreDone(d: Declared, i: nat)
    requires i < |OPERATIONS| && HasFirst(d, i) && Has(d, OPERATIONS[i])
    ensures HasFirst(d, i + 1)
  {
  }

  lemma AttemptKeeps(s: Setups, a: Attempt)
    requires SetupsOk(s)
    ensures SetupsOk(After(s, a)) && Grows(s.declared, After(s, a).declared)
  {
    var i, t := DoneBy(s, a.p), After(s, a);
    assert HasFirst(s.declared, i);
    if i < |OPERATIONS| {
      PerformEffect(s.declared, i);
      forall p
        ensures DoneBy(t, p) <= |OPERATIONS| && HasFirst(t.declared, DoneBy(t, p))
      {
        StillHas(s.declared, t.declared, DoneBy(s, p));
        if p == a.p && DoneBy(t, p) == i + 1 {
          OneMoreDone(t.declared, i);
        }
      }
    }
  }

  lemma {:induction false} SetupsThroughout(states: seq<Setups>, attempts: seq<Attempt>, m: nat)
    requires Run(states, attempts) && m < |states|
    ensures SetupsOk(states[m])
  {
    if m > 0 {
      SetupsThroughout(states, attempts, m - 1);
      AttemptKeeps(states[m - 1], attempts[m - 1]);
    }
  }

  lemma GrowsTransitive(d: Declared, e: Declared, f: Declared)
    requires Grows(d, e) && Grows(e, f)
    ensures Grows(d, f)
  {
  }

  lemma StepGrows(states: seq<Setups>, attempts: seq<Attempt>, n: nat)
    requires Run(states, attempts) && n < |attempts|
    ensures Grows(states[n].declared, states[n + 1].declared)
  {
    SetupsThroughout(states, attempts, n);
    AttemptKeeps(states[n], attempts[n]);
  }

  lemma {:induction false} DeclaredForever(states: seq<Setups>, attempts: seq<Attempt>, m: nat, n: nat)
    requires Run(states, attempts) && m <= n < |states|
    ensures Grows(states[m].declared, states[n].declared)
    decreases n - m
  {
    if m < n {
      DeclaredForever(states, attempts, m, n - 1);
      StepGrows(states, attempts, n - 1);
      GrowsTransitive(states[m].declared, states[n - 1].declared, states[n].declared);
    }
  }

  /** In any interleaving of any processes' setups, with any failures: from the moment the first of them has
      succeeded, and for good, a published message enters the process queue and a rejected one the dead-letter queue,
      and no other. */
  lemma RoutesForever(states: seq<Setups>, attempts: seq<Attempt>, m: nat, n: nat, p: nat)
    requires Run(states, attempts) && m <= n < |states| && DoneBy(states[m], p) == |OPERATIONS|
    ensures var d := states[n].declared;
            && Route(d, "lab.imports", "import.requested") == {"lab.imports.process"}
            && DeadRoute(d, "lab.imports.process") == {"lab.imports.dead_letter"}
            && DeadRoute(d, "lab.imports.dead_letter") == {}
  {
    SetupsThroughout(states, attempts, m);
    assert HasFirst(states[m].declared, DoneBy(states[m], p));
    HasAll(states[m].declared);
    DeclaredForever(states, attempts, m, n);
    SetupsThroughout(states, attempts, n);
    GrownComplete(states[n].declared);
    RoutesIff(states[n].declared);
  }
}
