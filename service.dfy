/** The named-channel relay registry (`ElsewhereService`): two string-keyed maps,
    the active receivers (`callbacks`) and the payloads buffered for names that have
    no receiver yet (`cachedCalls`), changed by register, unregister and send.

    The module has three layers:
    - a value model (`State`, `Outcome`) with one function per operation, whose
      contracts state what each operation promises;
    - a per-channel reference machine (`Channel`, `Transition`) taken from the
      registry's documented life cycle of one name, and lemmas proving that, when
      every lock is obtained and no name starts both active and buffered, the map
      model behaves as that machine on every name independently;
    - the class `ElsewhereService`, whose methods update the two maps in place and are
      proved against the value model.

    Lock acquisition is an input (`Locks`): whether the write/read lock on each map was
    obtained is decided by the environment, not by the registry. */
module Service {

  /** A notification sink (a receiver's `Callback`), known to the registry by identity. */
  type SinkId = nat

  datatype Option<T> = None | Some(value: T)

  /** The anomalies the registry reports (as warnings) instead of failing. */
  datatype Warning =
    | DuplicateRegistration(name: string)
    | SpuriousUnregistration(name: string)
    | LostBufferedUpdate(name: string)
    | LockFailure(name: string)

  /** Whether the lock on `callbacks` and the lock on `cachedCalls` could be taken. */
  datatype Locks = Locks(callbacks: bool, cache: bool)

  const AllAcquired := Locks(true, true)

  /** One invocation of a sink with a payload (`callback.emit(html)`). */
  datatype Delivery<P> = Delivery(sink: SinkId, payload: P)

  datatype State<P> = State(callbacks: map<string, SinkId>, cachedCalls: map<string, P>)

  /** What one operation leaves behind: the new maps, the payload handed back to the
      caller, the sink invocations it made and the warnings it logged. */
  datatype Outcome<P> = Outcome(state: State<P>, returned: Option<P>, emitted: seq<Delivery<P>>, warnings: seq<Warning>)

  function InitialState<P>(): State<P>
  {
    State(map[], map[])
  }

  /** The registry invariant: no name is both active and buffered. */
  predicate Disjoint<P>(s: State<P>)
  {
    s.callbacks.Keys !! s.cachedCalls.Keys
  }

  /** `register_component(name, sink)`. */
  function Register<P>(s: State<P>, name: string, sink: SinkId, locks: Locks): (o: Outcome<P>)
    ensures o.emitted == []
    // refused (callbacks lock not obtained, or the name is already active): nothing changes
    ensures !locks.callbacks ==> o.state == s && o.returned == None && o.warnings == [LockFailure(name)]
    ensures locks.callbacks && name in s.callbacks ==>
              o.state == s && o.returned == None && o.warnings == [DuplicateRegistration(name)]
    // accepted: the sink is installed under `name` and no other receiver changes
    ensures locks.callbacks && name !in s.callbacks ==>
              && o.warnings == []
              && name in o.state.callbacks && o.state.callbacks[name] == sink
              && o.state.callbacks - {name} == s.callbacks - {name}
              && o.state.cachedCalls - {name} == s.cachedCalls - {name}
    // ... and a buffered payload is handed back exactly when the cache lock was obtained
    ensures locks.callbacks && name !in s.callbacks ==>
              (o.returned.Some? <==> locks.cache && name in s.cachedCalls)
    ensures o.returned.Some? ==> name in s.cachedCalls && o.returned.value == s.cachedCalls[name]
                                 && name !in o.state.cachedCalls
    ensures o.returned.None? ==> o.state.cachedCalls == s.cachedCalls
  {
    if !locks.callbacks then
      Outcome(s, None, [], [LockFailure(name)])
    else if name in s.callbacks then
      Outcome(s, None, [], [DuplicateRegistration(name)])
    else
      var callbacks := s.callbacks[name := sink];
      if locks.cache && name in s.cachedCalls then
        Outcome(State(callbacks, s.cachedCalls - {name}), Some(s.cachedCalls[name]), [], [])
      else
        Outcome(State(callbacks, s.cachedCalls), None, [], [])
  }

  /** `unregister_component(name)`. */
  function Unregister<P>(s: State<P>, name: string, locks: Locks): (o: Outcome<P>)
    ensures o.returned == None && o.emitted == []
    ensures o.state.cachedCalls == s.cachedCalls
    ensures !locks.callbacks ==> o.state == s && o.warnings == [LockFailure(name)]
    ensures locks.callbacks ==>
              && name !in o.state.callbacks
              && o.state.callbacks - {name} == s.callbacks - {name}
              && (o.warnings == [] <==> name in s.callbacks)
              && (name !in s.callbacks ==> o.state == s && o.warnings == [SpuriousUnregistration(name)])
  {
    if !locks.callbacks then
      Outcome(s, None, [], [LockFailure(name)])
    else if name in s.callbacks then
      Outcome(State(s.callbacks - {name}, s.cachedCalls), None, [], [])
    else
      Outcome(s, None, [], [SpuriousUnregistration(name)])
  }

  /** `send(target, html)`: relay a payload to the receiver of `target`, or buffer it. */
  function Relay<P>(s: State<P>, target: string, html: P, locks: Locks): (o: Outcome<P>)
    ensures o.returned == None
    ensures o.state.callbacks == s.callbacks
    // delivered: exactly one invocation of the target's sink, no map changes
    ensures o.emitted != [] <==> locks.callbacks && target in s.callbacks
    ensures locks.callbacks && target in s.callbacks ==>
              o.emitted == [Delivery(s.callbacks[target], html)] && o.state == s && o.warnings == []
    // buffered: the payload replaces whatever was pending for `target`
    ensures locks.callbacks && locks.cache && target !in s.callbacks ==>
              && target in o.state.cachedCalls && o.state.cachedCalls[target] == html
              && o.state.cachedCalls - {target} == s.cachedCalls - {target}
              && (o.warnings == [LostBufferedUpdate(target)] <==> target in s.cachedCalls)
              && (o.warnings == [] <==> target !in s.cachedCalls)
    // a lock that could not be taken: the update is dropped with a warning
    ensures !locks.callbacks || (!locks.cache && target !in s.callbacks) ==>
              o.state == s && o.emitted == [] && o.warnings == [LockFailure(target)]
  {
    if !locks.callbacks then
      Outcome(s, None, [], [LockFailure(target)])
    else if target in s.callbacks then
      Outcome(s, None, [Delivery(s.callbacks[target], html)], [])
    else if !locks.cache then
      Outcome(s, None, [], [LockFailure(target)])
    else
      var overwritten := if target in s.cachedCalls then [LostBufferedUpdate(target)] else [];
      Outcome(State(s.callbacks, s.cachedCalls[target := html]), None, [], overwritten)
  }

  // ---------------------------------------------------------------------------
  // Calls and traces

  datatype Op<P> = RegisterOp(name: string, sink: SinkId) | UnregisterOp(name: string) | SendOp(name: string, payload: P)

  /** An operation together with the lock outcomes it met. */
  datatype Call<P> = Call(op: Op<P>, locks: Locks)

  function Step<P>(s: State<P>, c: Call<P>): Outcome<P>
  {
    match c.op
    case RegisterOp(n, k) => Register(s, n, k, c.locks)
    case UnregisterOp(n) => Unregister(s, n, c.locks)
    case SendOp(n, p) => Relay(s, n, p, c.locks)
  }

  /** The one lock pattern that does not leave the maps untouched on failure: the
      callbacks lock is taken (so the sink is installed) but the cache lock is not
      (so a buffered payload for the name stays behind). */
  predicate HalfLockedRegister<P>(c: Call<P>)
  {
    c.op.RegisterOp? && c.locks.callbacks && !c.locks.cache
  }

  lemma StepPreservesDisjoint<P>(s: State<P>, c: Call<P>)
    requires Disjoint(s) && !HalfLockedRegister(c)
    ensures Disjoint(Step(s, c).state)
  {
  }

  /** The exception is real: a half-locked registration of a buffered name leaves the
      name both active and buffered. */
  lemma HalfLockedRegisterBreaksDisjoint<P>(s: State<P>, name: string, sink: SinkId)
    requires name !in s.callbacks && name in s.cachedCalls
    ensures var o := Register(s, name, sink, Locks(true, false));
            && o.returned == None && o.warnings == []
            && name in o.state.callbacks && o.state.callbacks[name] == sink
            && name in o.state.cachedCalls && o.state.cachedCalls[name] == s.cachedCalls[name]
            && !Disjoint(o.state)
  {
  }

  datatype RunResult<P> = RunResult(state: State<P>, emitted: seq<Delivery<P>>, warnings: seq<Warning>)

  /** Applies the calls one after another, collecting sink invocations and warnings. */
  function Run<P>(s: State<P>, calls: seq<Call<P>>): RunResult<P>
    decreases |calls|
  {
    if calls == [] then RunResult(s, [], [])
    else
      var o := Step(s, calls[0]);
      var rest := Run(o.state, calls[1..]);
      RunResult(rest.state, o.emitted + rest.emitted, o.warnings + rest.warnings)
  }

  /** The invariant holds along every trace that avoids the half-locked registration;
      in particular along every trace in which all locks are obtained. */
  lemma {:induction false} RunPreservesDisjoint<P>(s: State<P>, calls: seq<Call<P>>)
    requires Disjoint(s)
    requires forall c :: c in calls ==> !HalfLockedRegister(c)
    ensures Disjoint(Run(s, calls).state)
    decreases |calls|
  {
    if calls != [] {
      StepPreservesDisjoint(s, calls[0]);
      assert forall c :: c in calls[1..] ==> c in calls;
      RunPreservesDisjoint(Step(s, calls[0]).state, calls[1..]);
    }
  }

  /** The payloads of the trace's `send` calls, in order. */
  function SentPayloads<P>(calls: seq<Call<P>>): seq<P>
    decreases |calls|
  {
    if calls == [] then []
    else (if calls[0].op.SendOp? then [calls[0].op.payload] else []) + SentPayloads(calls[1..])
  }

  /** Nothing is delivered that was not sent: a trace makes at most one sink
      invocation per `send`, and every invocation carries a payload that some `send`
      of the trace passed in. */
  lemma {:induction false} RunDeliversOnlySentPayloads<P>(s: State<P>, calls: seq<Call<P>>)
    ensures |Run(s, calls).emitted| <= |SentPayloads(calls)|
    ensures forall d :: d in Run(s, calls).emitted ==> d.payload in SentPayloads(calls)
    decreases |calls|
  {
    if calls != [] {
      var o := Step(s, calls[0]);
      RunDeliversOnlySentPayloads(o.state, calls[1..]);
      assert SentPayloads(calls) ==
        (if calls[0].op.SendOp? then [calls[0].op.payload] else []) + SentPayloads(calls[1..]);
    }
  }

  /** A trace in which every lock is obtained never reports a lock failure: its
      warnings are only the usage anomalies (duplicate registration, spurious
      unregistration, lost buffered update). */
  lemma {:induction false} FullyLockedRunReportsNoLockFailure<P>(s: State<P>, calls: seq<Call<P>>)
    requires forall c :: c in calls ==> c.locks == AllAcquired
    ensures forall w :: w in Run(s, calls).warnings ==> !w.LockFailure?
    decreases |calls|
  {
    if calls != [] {
      assert forall c :: c in calls[1..] ==> c in calls;
      assert calls[0].locks == AllAcquired;
      FullyLockedRunReportsNoLockFailure(Step(s, calls[0]).state, calls[1..]);
    }
  }

  // ---------------------------------------------------------------------------
  // The life cycle of one channel name, as an independent reference machine

  datatype Channel<P> = Unregistered | Pending(payload: P) | Active(sink: SinkId)

  datatype ChannelOp<P> = Attach(sink: SinkId) | Detach | Post(payload: P)

  datatype ChannelStep<P> = ChannelStep(next: Channel<P>, returned: Option<P>, emitted: seq<Delivery<P>>)

  /** Unregistered --post--> Pending --attach--> Active (payload handed over)
      --detach--> Unregistered; posting to Active delivers at once; posting to
      Pending replaces the payload; attaching to Active is refused; detach never
      touches a pending payload. */
  function Transition<P>(c: Channel<P>, op: ChannelOp<P>): ChannelStep<P>
  {
    match op
    case Attach(k) =>
      (match c
       case Unregistered => ChannelStep(Active(k), None, [])
       case Pending(p) => ChannelStep(Active(k), Some(p), [])
       case Active(_) => ChannelStep(c, None, []))
    case Detach =>
      (match c
       case Active(_) => ChannelStep(Unregistered, None, [])
       case _ => ChannelStep(c, None, []))
    case Post(p) =>
      (match c
       case Active(k) => ChannelStep(c, None, [Delivery(k, p)])
       case _ => ChannelStep(Pending(p), None, []))
  }

  function ChannelRun<P>(c: Channel<P>, ops: seq<ChannelOp<P>>): Channel<P>
    decreases |ops|
  {
    if ops == [] then c else ChannelRun(Transition(c, ops[0]).next, ops[1..])
  }

  /** What the registry holds for one name. */
  function ChannelOf<P>(s: State<P>, n: string): Channel<P>
  {
    if n in s.callbacks then Active(s.callbacks[n])
    else if n in s.cachedCalls then Pending(s.cachedCalls[n])
    else Unregistered
  }

  function ChannelOpOf<P>(op: Op<P>): ChannelOp<P>
  {
    match op
    case RegisterOp(_, k) => Attach(k)
    case UnregisterOp(_) => Detach
    case SendOp(_, p) => Post(p)
  }

  /** The calls of a trace that address `n`, as operations of `n`'s channel. */
  function Project<P>(calls: seq<Call<P>>, n: string): seq<ChannelOp<P>>
    decreases |calls|
  {
    if calls == [] then []
    else if calls[0].op.name == n then [ChannelOpOf(calls[0].op)] + Project(calls[1..], n)
    else Project(calls[1..], n)
  }

  /** With all locks obtained, one registry step acts on its own name exactly as the
      channel machine does (same returned payload, same sink invocations) and leaves
      every other name's channel as it was. */
  lemma StepRefinesTransition<P>(s: State<P>, op: Op<P>, n: string)
    requires Disjoint(s)
    ensures var o := Step(s, Call(op, AllAcquired));
            var t := Transition(ChannelOf(s, op.name), ChannelOpOf(op));
            && ChannelOf(o.state, n) == (if n == op.name then t.next else ChannelOf(s, n))
            && o.returned == t.returned
            && o.emitted == t.emitted
  {
  }

  /** Names do not interfere: after any fully locked trace from a consistent state,
      each name's channel is what the channel machine reaches by running only the
      calls addressed to that name. */
  lemma {:induction false} RunIsPerChannel<P>(s: State<P>, calls: seq<Call<P>>, n: string)
    requires Disjoint(s)
    requires forall c :: c in calls ==> c.locks == AllAcquired
    ensures ChannelOf(Run(s, calls).state, n) == ChannelRun(ChannelOf(s, n), Project(calls, n))
    decreases |calls|
  {
    if calls != [] {
      var c := calls[0];
      assert c == Call(c.op, AllAcquired);
      StepRefinesTransition(s, c.op, n);
      StepPreservesDisjoint(s, c);
      assert forall d :: d in calls[1..] ==> d in calls;
      RunIsPerChannel(Step(s, c).state, calls[1..], n);
    }
  }

  // ---------------------------------------------------------------------------
  // Properties of call sequences on one name

  /** Buffer-then-register: `send(n, p)` invokes no sink and `register(n, k)` then
      returns `p` with nothing left buffered for `n`. */
  lemma SendThenRegisterHandsOver<P>(s: State<P>, n: string, p: P, k: SinkId)
    requires n !in s.callbacks
    ensures var o1 := Relay(s, n, p, AllAcquired);
            var o2 := Register(o1.state, n, k, AllAcquired);
            && o1.emitted == [] && o2.emitted == []
            && o2.returned == Some(p)
            && ChannelOf(o2.state, n) == Active(k) && n !in o2.state.cachedCalls
  {
  }

  /** Last write wins: of two buffered payloads only the later one is handed over,
      and the overwrite is reported. */
  lemma LastWriteWins<P>(s: State<P>, n: string, p1: P, p2: P, k: SinkId)
    requires n !in s.callbacks
    ensures var o1 := Relay(s, n, p1, AllAcquired);
            var o2 := Relay(o1.state, n, p2, AllAcquired);
            var o3 := Register(o2.state, n, k, AllAcquired);
            && o2.warnings == [LostBufferedUpdate(n)]
            && o3.returned == Some(p2)
  {
  }

  /** A second registration under an active name is refused: the first sink keeps
      receiving, the second never does. */
  lemma FirstRegistrationWins<P>(s: State<P>, n: string, k1: SinkId, k2: SinkId, p: P)
    requires n !in s.callbacks
    ensures var o1 := Register(s, n, k1, AllAcquired);
            var o2 := Register(o1.state, n, k2, AllAcquired);
            var o3 := Relay(o2.state, n, p, AllAcquired);
            && o2.returned == None && o2.warnings == [DuplicateRegistration(n)]
            && o3.emitted == [Delivery(k1, p)]
  {
  }

  /** Unregistering twice is the same as once, apart from the reported anomaly. */
  lemma UnregisterIdempotent<P>(s: State<P>, n: string, locks: Locks)
    ensures var o1 := Unregister(s, n, locks);
            var o2 := Unregister(o1.state, n, locks);
            && o2.state == o1.state
            && (locks.callbacks ==> o2.warnings == [SpuriousUnregistration(n)])
  {
  }

  /** The end-to-end scenario: register "A" with S1 (nothing pending), send "hello"
      (delivered to S1), unregister "A", send "world" (buffered), register "A" with S2
      (receives "world"). */
  lemma EndToEnd(s1: SinkId, s2: SinkId)
    ensures var r1 := Register(InitialState<string>(), "A", s1, AllAcquired);
            var d1 := Relay(r1.state, "A", "hello", AllAcquired);
            var u := Unregister(d1.state, "A", AllAcquired);
            var d2 := Relay(u.state, "A", "world", AllAcquired);
            var r2 := Register(d2.state, "A", s2, AllAcquired);
            && r1.returned == None
            && d1.emitted == [Delivery(s1, "hello")]
            && d2.emitted == []
            && r2.returned == Some("world")
            && r2.state == State(map["A" := s2], map[])
  {
  }

  // ---------------------------------------------------------------------------
  // The registry object

  class ElsewhereService<P> {
    var callbacks: map<string, SinkId>
    var cachedCalls: map<string, P>
    /** Every sink invocation made so far, in order. */
    ghost var emitted: seq<Delivery<P>>
    /** Every warning logged so far, in order. */
    ghost var warnings: seq<Warning>

    function Snapshot(): State<P>
      reads this
    {
      State(callbacks, cachedCalls)
    }

    constructor Init()
      ensures Snapshot() == InitialState() && Disjoint(Snapshot())
      ensures emitted == [] && warnings == []
    {
      callbacks := map[];
      cachedCalls := map[];
      emitted := [];
      warnings := [];
    }

    method RegisterComponent(name: string, callback: SinkId, locks: Locks) returns (body: Option<P>)
      modifies this
      ensures var o := Register(old(Snapshot()), name, callback, locks);
              Snapshot() == o.state && body == o.returned && warnings == old(warnings) + o.warnings
      ensures emitted == old(emitted)
      ensures (!locks.callbacks || locks.cache) && old(Disjoint(Snapshot())) ==> Disjoint(Snapshot())
    {
      ghost var before := Snapshot();
      body := None;
      if !locks.callbacks {
        warnings := warnings + [LockFailure(name)];
      } else if name in callbacks {
        warnings := warnings + [DuplicateRegistration(name)];
      } else {
        callbacks := callbacks[name := callback];
        if locks.cache && name in cachedCalls {
          body := Some(cachedCalls[name]);
          cachedCalls := cachedCalls - {name};
        }
      }
      if (!locks.callbacks || locks.cache) && Disjoint(before) {
        StepPreservesDisjoint(before, Call(RegisterOp(name, callback), locks));
      }
    }

    method UnregisterComponent(name: string, locks: Locks)
      modifies this
      ensures var o := Unregister(old(Snapshot()), name, locks);
              Snapshot() == o.state && warnings == old(warnings) + o.warnings
      ensures emitted == old(emitted)
      ensures old(Disjoint(Snapshot())) ==> Disjoint(Snapshot())
    {
      if !locks.callbacks {
        warnings := warnings + [LockFailure(name)];
      } else if name in callbacks {
        callbacks := callbacks - {name};
      } else {
        warnings := warnings + [SpuriousUnregistration(name)];
      }
    }

    method Send(target: string, html: P, locks: Locks)
      modifies this
      ensures var o := Relay(old(Snapshot()), target, html, locks);
              Snapshot() == o.state && emitted == old(emitted) + o.emitted && warnings == old(warnings) + o.warnings
      ensures old(Disjoint(Snapshot())) ==> Disjoint(Snapshot())
    {
      ghost var before := Snapshot();
      if !locks.callbacks {
        warnings := warnings + [LockFailure(target)];
      } else if target in callbacks {
        var callback := callbacks[target];
        emitted := emitted + [Delivery(callback, html)];
      } else if !locks.cache {
        warnings := warnings + [LockFailure(target)];
      } else {
        if target in cachedCalls {
          warnings := warnings + [LostBufferedUpdate(target)];
        }
        cachedCalls := cachedCalls[target := html];
      }
      if Disjoint(before) {
        StepPreservesDisjoint(before, Call(SendOp(target, html), locks));
      }
    }
  }
}
