/** "Once the N-th signal, or a force, has returned, no waiter is asleep un-notified"
    (src/infra/gate_guard.h:28-44, src/infra/manual_reset_event.h:27-42): when that holds, as
    a condition on the calls made on the gate, in both directions. */
module GateRace {
  import opened Basics
  import opened Gate

  // ----- the condition -----

  predicate SomeWait(cfg: Config) { exists w: nat :: w < |cfg.ops| && cfg.ops[w] == CallWait }

  predicate SomeForce(cfg: Config) { exists t: nat :: t < |cfg.ops| && cfg.ops[t] == CallForce }

  predicate TwoForces(cfg: Config) {
    exists t: nat, u: nat :: t < u < |cfg.ops| && cfg.ops[t] == CallForce && cfg.ops[u] == CallForce
  }

  /** Two calls may find themselves in set(): two forces, or a force and the N-th signal. */
  ghost predicate TwoSetters(cfg: Config) {
    TwoForces(cfg) || (SomeForce(cfg) && SignalCalls(cfg) >= cfg.need)
  }

  /** A call that had reached set() has returned, and a waiter is still asleep un-notified. */
  ghost predicate EarlyReturn(cfg: Config, labels: seq<Label>, more: seq<Label>, t: nat, w: nat) {
    && Exec(cfg, labels).Some? && Exec(cfg, labels + more).Some? && t < |cfg.ops| && w < |cfg.ops|
    && var s, s' := Exec(cfg, labels).value, Exec(cfg, labels + more).value;
       && t < |s.pcs| && t < |s'.pcs| && w < |s'.pcs|
       && InSet(s.pcs[t]) && s'.pcs[t] == Returned && s'.pcs[w] == Asleep(false)
  }

  // ----- one setter -----

  /** At most one call is in set(), and a signal only when there are enough of them. */
  ghost predicate OneInSet(cfg: Config, s: State) {
    && |s.pcs| == |cfg.ops|
    && (forall t, u :: 0 <= t < |s.pcs| && 0 <= u < |s.pcs| && InSet(s.pcs[t]) && InSet(s.pcs[u]) ==> t == u)
    && (SignalCalls(cfg) < cfg.need ==>
          forall t :: 0 <= t < |s.pcs| && InSet(s.pcs[t]) ==> cfg.ops[t] == CallForce)
  }

  function CallFlags(cfg: Config): seq<nat> {
    seq(|cfg.ops|, t requires 0 <= t < |cfg.ops| => if cfg.ops[t] == CallSignal then 1 else 0)
  }

  lemma {:induction false} SumBelow(a: seq<nat>, b: seq<nat>)
    requires |a| == |b| && forall i :: 0 <= i < |a| ==> a[i] <= b[i]
    ensures Sum(a) <= Sum(b)
    ensures (exists i :: 0 <= i < |a| && a[i] < b[i]) ==> Sum(a) < Sum(b)
  {
    if a != [] {
      SumBelow(a[1..], b[1..]);
      if i :| 0 < i < |a| && a[i] < b[i] {
        assert a[1..][i - 1] < b[1..][i - 1];
      }
    }
  }

  /** Signals made are at most the signal calls, and fewer while one has not begun. */
  lemma SignalsLeft(cfg: Config, s: State)
    requires |s.pcs| == |cfg.ops|
    ensures Signals(cfg, s) <= SignalCalls(cfg)
    ensures (exists t :: 0 <= t < |s.pcs| && cfg.ops[t] == CallSignal && s.pcs[t] == Start) ==>
              Signals(cfg, s) < SignalCalls(cfg)
    ensures Signals(cfg, s) < SignalCalls(cfg) ==>
              exists t :: 0 <= t < |s.pcs| && cfg.ops[t] == CallSignal && s.pcs[t] == Start
  {
    var a, b := SignalFlags(cfg, s), CallFlags(cfg);
    SumBelow(a, b);
    if t :| 0 <= t < |s.pcs| && cfg.ops[t] == CallSignal && s.pcs[t] == Start {
      assert a[t] < b[t];
    } else {
      assert a == b;
    }
  }

  /** A call enters set() only as a force, or as the signal that makes the count reach N. */
  lemma Enters(cfg: Config, s: State, l: Label, t: nat)
    requires Inv(cfg, s) && Enabled(cfg, s, l) && t < |s.pcs| && !InSet(s.pcs[t])
    requires t < |Apply(cfg, s, l).pcs| && InSet(Apply(cfg, s, l).pcs[t])
    ensures l == Step(t) && s.pcs[t] == Start
    ensures cfg.ops[t] == CallForce || (cfg.ops[t] == CallSignal && s.count + 1 == cfg.need && SignalCalls(cfg) >= cfg.need)
  {
    if cfg.ops[t] == CallSignal {
      BeginCount(cfg, s, t);
      SignalsLeft(cfg, s);
    }
  }

  lemma OneStep(cfg: Config, s: State, l: Label)
    requires Inv(cfg, s) && Enabled(cfg, s, l) && OneInSet(cfg, s) && !TwoSetters(cfg)
    ensures OneInSet(cfg, Apply(cfg, s, l))
  {
    var s' := Apply(cfg, s, l);
    StepInv(cfg, s, l);
    forall t | 0 <= t < |s'.pcs| && InSet(s'.pcs[t]) && !InSet(s.pcs[t])
      ensures t == l.t && forall u :: 0 <= u < |s.pcs| && u != t ==> !InSet(s.pcs[u])
      ensures SignalCalls(cfg) < cfg.need ==> cfg.ops[t] == CallForce
    {
      Enters(cfg, s, l, t);
      forall u | 0 <= u < |s.pcs| && u != t ensures !InSet(s.pcs[u]) {
        assert ThreadOk(cfg, s, u);
      }
    }
    StepCount(cfg, s, l);
    assert ThreadOk(cfg, s, l.t);
    StepSeen(cfg, s, l);
  }

  lemma {:induction false} OneRun(cfg: Config, labels: seq<Label>)
    requires cfg.Valid() && Exec(cfg, labels).Some? && !TwoSetters(cfg)
    ensures OneInSet(cfg, Exec(cfg, labels).value)
    decreases |labels|
  {
    if labels != [] {
      var n := |labels| - 1;
      OneRun(cfg, labels[..n]);
      RunInv(cfg, labels[..n]);
      OneStep(cfg, Exec(cfg, labels[..n]).value, labels[n]);
    }
  }

  /** The call that reached set() is in there alone, or has returned after the event was set;
      and nobody else will enter. */
  ghost predicate Alone(cfg: Config, s: State, t: nat) {
    && |s.pcs| == |cfg.ops| && t < |s.pcs| && s.count >= cfg.need
    && (InSet(s.pcs[t]) || (s.pcs[t] == Returned && s.isSet))
    && (forall u :: 0 <= u < |s.pcs| && u != t ==> !InSet(s.pcs[u]))
    && (SignalCalls(cfg) < cfg.need ==> cfg.ops[t] == CallForce)
  }

  lemma NoOtherForce(cfg: Config, t: nat, u: nat)
    requires !TwoSetters(cfg) && t < |cfg.ops| && u < |cfg.ops| && t != u
    requires SignalCalls(cfg) < cfg.need ==> cfg.ops[t] == CallForce
    ensures cfg.ops[u] != CallForce
  { }

  /** A step of another thread, which is no force, cannot enter: the count is past N already. */
  lemma StaysOut(cfg: Config, s: State, l: Label)
    requires Inv(cfg, s) && Enabled(cfg, s, l) && s.count >= cfg.need
    requires !InSet(s.pcs[l.t]) && cfg.ops[l.t] != CallForce
    ensures !InSet(Apply(cfg, s, l).pcs[l.t])
  {
    if l.Step? && s.pcs[l.t] == Start && cfg.ops[l.t] == CallSignal { BeginCount(cfg, s, l.t); }
  }

  /** The call itself stays in set(), or leaves it with the event set. */
  lemma LeavesSet(cfg: Config, s: State, l: Label)
    requires Enabled(cfg, s, l) && ThreadOk(cfg, s, l.t)
    requires InSet(s.pcs[l.t]) || (s.pcs[l.t] == Returned && s.isSet)
    ensures var s' := Apply(cfg, s, l);
            l.t < |s'.pcs| && (InSet(s'.pcs[l.t]) || (s'.pcs[l.t] == Returned && s'.isSet))
  { }

  lemma AloneStep(cfg: Config, s: State, l: Label, t: nat)
    requires Inv(cfg, s) && Enabled(cfg, s, l) && Alone(cfg, s, t) && !TwoSetters(cfg)
    ensures Alone(cfg, Apply(cfg, s, l), t)
  {
    StepCount(cfg, s, l);
    assert ThreadOk(cfg, s, l.t);
    StepSeen(cfg, s, l);
    if l.t == t {
      LeavesSet(cfg, s, l);
    } else {
      NoOtherForce(cfg, t, l.t);
      StaysOut(cfg, s, l);
    }
  }

  lemma {:induction false} AloneRun(cfg: Config, labels: seq<Label>, more: seq<Label>, t: nat)
    requires cfg.Valid() && Exec(cfg, labels).Some? && Exec(cfg, labels + more).Some? && !TwoSetters(cfg)
    requires t < |cfg.ops| && t < |Exec(cfg, labels).value.pcs| && InSet(Exec(cfg, labels).value.pcs[t])
    ensures Alone(cfg, Exec(cfg, labels + more).value, t)
    decreases |more|
  {
    if more == [] {
      assert labels + more == labels;
      RunInv(cfg, labels);
      OneRun(cfg, labels);
      assert ThreadOk(cfg, Exec(cfg, labels).value, t);
    } else {
      var n := |more| - 1;
      var prev := labels + more[..n];
      assert (labels + more)[..|labels + more| - 1] == prev;
      AloneRun(cfg, labels, more[..n], t);
      RunInv(cfg, prev);
      AloneStep(cfg, Exec(cfg, prev).value, more[n], t);
    }
  }

  /** Unless two calls can be in set() together: in every run, once the call that reached set()
      has returned, be it the N-th signal or a force, the event is set and no waiter is asleep
      un-notified, whatever the other calls are doing. */
  lemma ReturnMeansNotified(cfg: Config, labels: seq<Label>, more: seq<Label>, t: nat)
    requires cfg.Valid() && Exec(cfg, labels).Some? && Exec(cfg, labels + more).Some? && !TwoSetters(cfg)
    requires t < |cfg.ops| && t < |Exec(cfg, labels).value.pcs| && InSet(Exec(cfg, labels).value.pcs[t])
    ensures var s := Exec(cfg, labels + more).value;
            && |s.pcs| == |cfg.ops|
            && (s.pcs[t] == Returned ==> s.isSet && forall w :: 0 <= w < |s.pcs| ==> s.pcs[w] != Asleep(false))
  {
    AloneRun(cfg, labels, more, t);
    RunInv(cfg, labels + more);
    var s := Exec(cfg, labels + more).value;
    forall w | 0 <= w < |s.pcs| && s.pcs[t] == Returned ensures s.pcs[w] != Asleep(false) {
      assert ThreadOk(cfg, s, w);
    }
  }

  // ----- two setters -----

  lemma Go(cfg: Config, labels: seq<Label>, l: Label) returns (longer: seq<Label>)
    requires Exec(cfg, labels).Some? && Enabled(cfg, Exec(cfg, labels).value, l)
    ensures longer == labels + [l] && Exec(cfg, longer) == Some(Apply(cfg, Exec(cfg, labels).value, l))
  {
    longer := labels + [l];
    assert longer[..|labels|] == labels;
  }

  /** From the start, a waiter runs until it finds the event not set. */
  lemma LooksFirst(cfg: Config, w: nat) returns (labels: seq<Label>)
    requires w < |cfg.ops| && cfg.ops[w] == CallWait
    ensures Exec(cfg, labels) == Some(Init(cfg).(owner := Some(w), pcs := Init(cfg).pcs[w := WaitCheck]))
  {
    labels := Go(cfg, [], Step(w));
    labels := Go(cfg, labels, Step(w));
    assert Exec(cfg, labels).value.pcs == Init(cfg).pcs[w := WaitCheck];
  }

  /** Then it sleeps. */
  lemma SleepFirst(cfg: Config, w: nat) returns (labels: seq<Label>)
    requires w < |cfg.ops| && cfg.ops[w] == CallWait
    ensures Exec(cfg, labels) == Some(Init(cfg).(pcs := Init(cfg).pcs[w := Asleep(false)]))
  {
    labels := LooksFirst(cfg, w);
    labels := Go(cfg, labels, Step(w));
    labels := Go(cfg, labels, Step(w));
    assert Exec(cfg, labels).value.pcs == Init(cfg).pcs[w := Asleep(false)];
  }

  /** A waiter sleeps, nobody holds the mutex, the event is not set, and of the other calls
      only signals have done anything: they have returned. */
  ghost predicate Asleep1(cfg: Config, s: State, w: nat) {
    && |s.pcs| == |cfg.ops| && w < |s.pcs| && cfg.ops[w] == CallWait && s.pcs[w] == Asleep(false)
    && s.owner == None && !s.isSet
    && forall u :: 0 <= u < |s.pcs| && u != w ==> s.pcs[u] == Start || (cfg.ops[u] == CallSignal && s.pcs[u] == Returned)
  }

  /** Signals run one after the other until one is missing. */
  lemma {:induction false} SignalUp(cfg: Config, labels: seq<Label>, w: nat) returns (longer: seq<Label>)
    requires cfg.Valid() && SignalCalls(cfg) >= cfg.need && Exec(cfg, labels).Some?
    requires Asleep1(cfg, Exec(cfg, labels).value, w) && Exec(cfg, labels).value.count < cfg.need
    ensures Exec(cfg, longer).Some? && Asleep1(cfg, Exec(cfg, longer).value, w) && Exec(cfg, longer).value.count == cfg.need - 1
    decreases cfg.need - Exec(cfg, labels).value.count
  {
    var s := Exec(cfg, labels).value;
    if s.count == cfg.need - 1 {
      longer := labels;
    } else {
      var t := NextSignal(cfg, labels, w);
      longer := Go(cfg, labels, Step(t));
      longer := SignalUp(cfg, longer, w);
    }
  }

  /** While the count is below N, a signal call has still to begin. */
  lemma NextSignal(cfg: Config, labels: seq<Label>, w: nat) returns (t: nat)
    requires cfg.Valid() && SignalCalls(cfg) >= cfg.need && Exec(cfg, labels).Some?
    requires Asleep1(cfg, Exec(cfg, labels).value, w) && Exec(cfg, labels).value.count < cfg.need
    ensures t < |cfg.ops| && cfg.ops[t] == CallSignal && Exec(cfg, labels).value.pcs[t] == Start && t != w
    ensures U64(Exec(cfg, labels).value.count + 1) == Exec(cfg, labels).value.count + 1
  {
    RunInv(cfg, labels);
    var s := Exec(cfg, labels).value;
    SignalsLeft(cfg, s);
    t :| 0 <= t < |s.pcs| && cfg.ops[t] == CallSignal && s.pcs[t] == Start;
  }

  /** A call in front of set() takes the mutex and stores, but has not notified. */
  lemma StoreOnly(cfg: Config, labels: seq<Label>, t: nat) returns (longer: seq<Label>)
    requires Exec(cfg, labels).Some?
    requires var s := Exec(cfg, labels).value;
             |s.pcs| == |cfg.ops| && t < |s.pcs| && s.pcs[t] == FastCheck && s.owner == None && !s.isSet
    ensures var s := Exec(cfg, labels).value;
            Exec(cfg, longer) == Some(s.(isSet := true, owner := Some(t), pcs := s.pcs[t := Notify]))
  {
    var s := Exec(cfg, labels).value;
    longer := Go(cfg, labels, Step(t));
    longer := Go(cfg, longer, Step(t));
    longer := Go(cfg, longer, Step(t));
    assert Exec(cfg, longer).value.pcs == s.pcs[t := Notify];
  }

  /** A force that finds the event set is through. */
  lemma ForceThrough(cfg: Config, labels: seq<Label>, f: nat, w: nat) returns (mid: seq<Label>, more: seq<Label>)
    requires Exec(cfg, labels).Some? && f != w && f < |cfg.ops| && w < |cfg.ops| && cfg.ops[f] == CallForce
    requires var s := Exec(cfg, labels).value;
             |s.pcs| == |cfg.ops| && s.pcs[f] == Start && s.isSet && s.pcs[w] == Asleep(false)
    ensures EarlyReturn(cfg, mid, more, f, w)
  {
    mid := Go(cfg, labels, Step(f));
    var longer := Go(cfg, mid, Step(f));
    more := [Step(f)];
    assert longer == mid + more;
  }

  /** A force, or the signal that makes the count reach N, goes as far as the store. */
  lemma EnterAndStore(cfg: Config, labels: seq<Label>, w: nat, t: nat) returns (longer: seq<Label>)
    requires Exec(cfg, labels).Some? && Asleep1(cfg, Exec(cfg, labels).value, w)
    requires t < |cfg.ops| && t != w && Exec(cfg, labels).value.pcs[t] == Start
    requires cfg.ops[t] == CallForce || (cfg.ops[t] == CallSignal && U64(Exec(cfg, labels).value.count + 1) == cfg.need)
    ensures Exec(cfg, longer).Some?
    ensures var s, s' := Exec(cfg, labels).value, Exec(cfg, longer).value;
            |s'.pcs| == |cfg.ops| && s'.isSet && forall u :: 0 <= u < |cfg.ops| && u != t ==> s'.pcs[u] == s.pcs[u]
  {
    longer := Go(cfg, labels, Step(t));
    longer := StoreOnly(cfg, longer, t);
  }

  /** Another call has stored and not notified, and a force has not begun. */
  lemma FirstSetter(cfg: Config, w: nat, f: nat) returns (labels: seq<Label>)
    requires cfg.Valid() && w < |cfg.ops| && cfg.ops[w] == CallWait && f < |cfg.ops| && cfg.ops[f] == CallForce
    requires SignalCalls(cfg) >= cfg.need || exists g: nat :: g < |cfg.ops| && g != f && cfg.ops[g] == CallForce
    ensures Exec(cfg, labels).Some?
    ensures var s := Exec(cfg, labels).value;
            |s.pcs| == |cfg.ops| && s.pcs[f] == Start && s.isSet && s.pcs[w] == Asleep(false)
  {
    labels := SleepFirst(cfg, w);
    var t: nat;
    if SignalCalls(cfg) >= cfg.need {
      labels := SignalUp(cfg, labels, w);
      t := NextSignal(cfg, labels, w);
    } else {
      t :| t < |cfg.ops| && t != f && cfg.ops[t] == CallForce;
    }
    labels := EnterAndStore(cfg, labels, w, t);
  }

  /** Two setters and a waiter are enough for an early return. */
  lemma RaceHappens(cfg: Config) returns (labels: seq<Label>, more: seq<Label>, f: nat, w: nat)
    requires cfg.Valid() && SomeWait(cfg) && TwoSetters(cfg)
    ensures EarlyReturn(cfg, labels, more, f, w)
  {
    w :| w < |cfg.ops| && cfg.ops[w] == CallWait;
    if TwoForces(cfg) {
      var t: nat, u: nat :| t < u < |cfg.ops| && cfg.ops[t] == CallForce && cfg.ops[u] == CallForce;
      f := u;
    } else {
      f :| f < |cfg.ops| && cfg.ops[f] == CallForce;
    }
    labels := FirstSetter(cfg, w, f);
    labels, more := ForceThrough(cfg, labels, f, w);
  }

  /** A call that reached set() can return with a waiter still asleep un-notified if and only
      if there is a waiter, and there are two forces, or a force and at least N signals. */
  lemma EarlyReturnIff(cfg: Config)
    requires cfg.Valid()
    ensures (exists labels, more, t, w :: EarlyReturn(cfg, labels, more, t, w)) <==> SomeWait(cfg) && TwoSetters(cfg)
  {
    forall labels, more, t, w | EarlyReturn(cfg, labels, more, t, w) ensures SomeWait(cfg) && TwoSetters(cfg) {
      RunInv(cfg, labels + more);
      assert ThreadOk(cfg, Exec(cfg, labels + more).value, w);
      if !TwoSetters(cfg) {
        ReturnMeansNotified(cfg, labels, more, t);
        assert false;
      }
    }
    if SomeWait(cfg) && TwoSetters(cfg) {
      var labels, more, f, w := RaceHappens(cfg);
    }
  }
}
