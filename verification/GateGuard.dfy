/** `gate_guard` and `manual_reset_event` as objects used by one thread at a time
    (src/infra/gate_guard.h:11-73, src/infra/manual_reset_event.h:11-54). Their methods are
    tied to module Gate: each does what the machine does when no other call interferes. */
module GateGuard {
  import opened Basics
  import Gate

  /** `(uint64_t)-1`, the value that marks a gate without a count. */
  const INVALID_SIGNAL_COUNT: nat := TWO64 - 1

  /** Counter and event after an undisturbed signal or force. */
  function AfterCall(op: Gate.Op, need: nat, count: nat, isSet: bool): (nat, bool) {
    match op
    case CallSignal => (U64(count + 1), isSet || U64(count + 1) == need)
    case CallForce => (need, true)
    case CallWait => (count, isSet)
  }

  class ManualResetEvent {
    var isSet: bool

    constructor (isSet: bool)
      ensures this.isSet == isSet
    {
      this.isSet := isSet;
    }

    method Set()
      modifies this
      ensures isSet
    {
      if isSet {
        return;
      }
      isSet := true;
    }
  }

  class GateGuard {
    const event: ManualResetEvent
    var currSignalCount: nat
    var atLeastSignal: nat

    /** The event is set exactly when enough signals were counted. */
    ghost predicate Valid()
      reads this, event
    {
      && currSignalCount < TWO64
      && (event.isSet <==> IsInitialized() && currSignalCount >= atLeastSignal)
      && (IsInitialized() ==> 0 < atLeastSignal < INVALID_SIGNAL_COUNT)
      && (!IsInitialized() ==> currSignalCount == 0)
    }

    predicate IsInitialized()
      reads this
    {
      atLeastSignal != INVALID_SIGNAL_COUNT
    }

    constructor ()
      ensures Valid() && !IsInitialized() && fresh(event)
    {
      event := new ManualResetEvent(false);
      currSignalCount := 0;
      atLeastSignal := INVALID_SIGNAL_COUNT;
    }

    method Init(atLeast: nat)
      requires Valid() && !IsInitialized() && 0 < atLeast < INVALID_SIGNAL_COUNT
      modifies this
      ensures Valid() && IsInitialized() && atLeastSignal == atLeast && currSignalCount == 0 && !event.isSet
    {
      atLeastSignal := atLeast;
    }

    /** Event and counter agree afterwards unless this was the 2^64-th signal. */
    method Signal()
      requires Valid() && IsInitialized()
      modifies this`currSignalCount, event
      ensures Valid() <==> old(currSignalCount) + 1 < TWO64
      ensures (currSignalCount, event.isSet)
              == old(AfterCall(Gate.CallSignal, atLeastSignal, currSignalCount, event.isSet))
    {
      currSignalCount := U64(currSignalCount + 1);
      if currSignalCount == atLeastSignal {
        event.Set();
      }
    }

    method ForceSignalAll()
      requires Valid() && IsInitialized()
      modifies this`currSignalCount, event
      ensures Valid() && IsInitialized()
      ensures (currSignalCount, event.isSet)
              == old(AfterCall(Gate.CallForce, atLeastSignal, currSignalCount, event.isSet))
    {
      currSignalCount := atLeastSignal;
      event.Set();
    }

    /** can_pass agrees with what a wait would see. */
    method CanPass() returns (pass: bool)
      requires Valid() && IsInitialized()
      ensures pass <==> currSignalCount >= atLeastSignal
      ensures pass <==> event.isSet
    {
      pass := currSignalCount >= atLeastSignal;
    }
  }

  // ----- waiting for other threads -----

  /** Counter and event after a list of calls, one after the other. */
  function AfterCalls(ops: seq<Gate.Op>, need: nat, count: nat, isSet: bool): (nat, bool)
    decreases |ops|
  {
    if ops == [] then (count, isSet)
    else
      var r := AfterCall(ops[0], need, count, isSet);
      AfterCalls(ops[1..], need, r.0, r.1)
  }

  function Signals(ops: seq<Gate.Op>): (n: nat)
    ensures n <= |ops|
  {
    if ops == [] then 0 else (if ops[0].CallSignal? then 1 else 0) + Signals(ops[1..])
  }

  /** Calls open a gate if and only if it was open, one of them is a force, or the missing
      signals are among them. */
  lemma {:induction false} OpenedBy(ops: seq<Gate.Op>, need: nat, count: nat, isSet: bool)
    requires count + |ops| < TWO64 && need + |ops| < TWO64 && (isSet <==> count >= need)
    ensures AfterCalls(ops, need, count, isSet).1 <==> isSet || Gate.CallForce in ops || count + Signals(ops) >= need
    decreases |ops|
  {
    if ops != [] {
      var r := AfterCall(ops[0], need, count, isSet);
      assert ops == [ops[0]] + ops[1..];
      OpenedBy(ops[1..], need, r.0, r.1);
    }
  }

  lemma {:induction false} CallsInTurn(a: seq<Gate.Op>, op: Gate.Op, need: nat, count: nat, isSet: bool)
    ensures var r := AfterCalls(a, need, count, isSet);
            AfterCalls(a + [op], need, count, isSet) == AfterCall(op, need, r.0, r.1)
    decreases |a|
  {
    if a != [] {
      assert (a + [op])[1..] == a[1..] + [op];
      var r := AfterCall(a[0], need, count, isSet);
      CallsInTurn(a[1..], op, need, r.0, r.1);
    } else {
      assert (a + [op])[1..] == [];
    }
  }

  /** A gate, and the calls other threads will still make on it. */
  class Awaited {
    const gate: GateGuard
    var toCome: seq<Gate.Op>

    ghost predicate Valid()
      reads this, gate, gate.event
    {
      && gate.Valid() && gate.IsInitialized()
      && gate.currSignalCount + |toCome| < TWO64 && gate.atLeastSignal + |toCome| < TWO64
    }

    /** The calls to come open the gate; a wait returns only then. */
    predicate WillOpen()
      reads this, gate, gate.event
    {
      AfterCalls(toCome, gate.atLeastSignal, gate.currSignalCount, gate.event.isSet).1
    }

    constructor (gate: GateGuard, toCome: seq<Gate.Op>)
      ensures this.gate == gate && this.toCome == toCome
    {
      this.gate, this.toCome := gate, toCome;
    }

    /** The next call of another thread. */
    method Other()
      requires Valid() && toCome != []
      modifies this`toCome, gate`currSignalCount, gate.event
      ensures Valid() && toCome == old(toCome)[1..]
      ensures (gate.currSignalCount, gate.event.isSet)
              == old(AfterCall(toCome[0], gate.atLeastSignal, gate.currSignalCount, gate.event.isSet))
    {
      var op := toCome[0];
      toCome := toCome[1..];
      match op {
        case CallSignal => gate.Signal();
        case CallForce => gate.ForceSignalAll();
        case CallWait =>
      }
    }

    /** gate_guard::wait changes nothing itself: it returns with the event set, by the first
        calls of the others, and by however many more they made before this thread ran again. */
    method Wait() returns (ghost made: seq<Gate.Op>)
      requires Valid() && WillOpen()
      modifies this`toCome, gate`currSignalCount, gate.event
      ensures Valid() && gate.event.isSet && old(toCome) == made + toCome
      ensures (gate.currSignalCount, gate.event.isSet)
              == AfterCalls(made, gate.atLeastSignal, old(gate.currSignalCount), old(gate.event.isSet))
    {
      ghost var need, count, isSet := gate.atLeastSignal, gate.currSignalCount, gate.event.isSet;
      made := [];
      var late: nat :| late <= |toCome|;
      while !gate.event.isSet || |toCome| > late
        invariant Valid() && WillOpen() && old(toCome) == made + toCome
        invariant (gate.currSignalCount, gate.event.isSet) == AfterCalls(made, need, count, isSet)
        decreases |toCome|
      {
        CallsInTurn(made, toCome[0], need, count, isSet);
        made := made + [toCome[0]];
        Other();
      }
    }
  }

  // ----- the machine, undisturbed -----

  /** Nobody holds the mutex. */
  predicate Quiet(s: Gate.State, t: nat) { t < |s.pcs| && s.owner == None }

  /** `n` steps of thread t. */
  function Alone(cfg: Gate.Config, s: Gate.State, t: nat, n: nat): Option<Gate.State>
    decreases n
  {
    if n == 0 then Some(s)
    else if Gate.Enabled(cfg, s, Gate.Step(t)) then Alone(cfg, Gate.Apply(cfg, s, Gate.Step(t)), t, n - 1)
    else None
  }

  lemma LoneSet(cfg: Gate.Config, s: Gate.State, t: nat)
    requires |s.pcs| == |cfg.ops| && Quiet(s, t) && s.pcs[t] == Gate.FastCheck && !s.isSet
    ensures Alone(cfg, s, t, 5).Some?
    ensures var s' := Alone(cfg, s, t, 5).value;
            && |s'.pcs| == |s.pcs| && s'.pcs[t] == Gate.Returned && s'.owner == None
            && s'.count == s.count && s'.isSet
            && forall u :: 0 <= u < |s.pcs| && u != t ==>
                 s'.pcs[u] == if s.pcs[u] == Gate.Asleep(false) then Gate.Asleep(true) else s.pcs[u]
  {
    var s1 := Gate.Apply(cfg, s, Gate.Step(t));
    var s2 := Gate.Apply(cfg, s1, Gate.Step(t));
    var s3 := Gate.Apply(cfg, s2, Gate.Step(t));
    var s4 := Gate.Apply(cfg, s3, Gate.Step(t));
    var s5 := Gate.Apply(cfg, s4, Gate.Step(t));
    assert Alone(cfg, s4, t, 1) == Some(s5);
    assert Alone(cfg, s2, t, 3) == Some(s5);
  }

  /** An undisturbed signal or force changes counter and event as AfterCall says, lets the
      mutex go, and wakes every sleeper when it set the event. */
  lemma LoneCall(cfg: Gate.Config, s: Gate.State, t: nat) returns (n: nat)
    requires Gate.Inv(cfg, s) && Quiet(s, t) && s.pcs[t] == Gate.Start && cfg.ops[t] != Gate.CallWait
    ensures Alone(cfg, s, t, n).Some?
    ensures var s' := Alone(cfg, s, t, n).value;
            && |s'.pcs| == |s.pcs| && s'.pcs[t] == Gate.Returned && s'.owner == None
            && (s'.count, s'.isSet) == AfterCall(cfg.ops[t], cfg.need, s.count, s.isSet)
            && (s'.isSet && !s.isSet ==>
                  forall u :: 0 <= u < |s'.pcs| ==> s'.pcs[u] != Gate.Asleep(false))
  {
    var s1 := Gate.Apply(cfg, s, Gate.Step(t));
    if s1.pcs[t] == Gate.Returned {
      n := 1;
      assert Alone(cfg, s1, t, 0) == Some(s1);
    } else if s.isSet {
      n := 2;
      var s2 := Gate.Apply(cfg, s1, Gate.Step(t));
      assert Alone(cfg, s2, t, 0) == Some(s2);
      assert Alone(cfg, s1, t, 1) == Some(s2);
    } else {
      n := 6;
      LoneSet(cfg, s1, t);
    }
  }
}
