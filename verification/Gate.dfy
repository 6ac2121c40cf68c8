/** `gate_guard` over `manual_reset_event` (src/infra/gate_guard.h:19-64,
    src/infra/manual_reset_event.h:21-42) as a machine with any number of threads. Each
    thread makes one call: signal, force_signal_all or wait. One step is one atomic
    operation, one mutex operation, or one notification. */
module Gate {
  import opened Basics

  datatype Op = CallSignal | CallForce | CallWait

  /** Where a thread is. From Store to SetUnlock, and in WaitCheck, Sleep and WaitUnlock, it
      holds the mutex. `Asleep(notified)` is inside the condition variable. */
  datatype Pc =
    | Start | FastCheck | Lock | Store | Notify | SetUnlock
    | WaitLock | WaitCheck | Sleep | Asleep(notified: bool) | WaitUnlock
    | Returned

  datatype Config = Config(ops: seq<Op>, need: nat)
  {
    predicate Valid() { need > 0 && need + |ops| < TWO64 }
  }

  datatype State = State(count: nat, isSet: bool, owner: Option<nat>, pcs: seq<Pc>)

  /** `Wake` is a spurious return of the condition variable. */
  datatype Label = Step(t: nat) | Wake(t: nat)

  function Init(cfg: Config): State { State(0, false, None, seq(|cfg.ops|, _ => Start)) }

  predicate Holds(pc: Pc) {
    pc == Store || pc == Notify || pc == SetUnlock || pc == WaitCheck || pc == Sleep || pc == WaitUnlock
  }

  predicate TakesMutex(pc: Pc) { pc == Lock || pc == WaitLock || pc == Asleep(true) }

  predicate Enabled(cfg: Config, s: State, l: Label) {
    && |s.pcs| == |cfg.ops| && l.t < |s.pcs|
    && match l
       case Step(t) =>
         && s.pcs[t] != Returned && s.pcs[t] != Asleep(false)
         && (TakesMutex(s.pcs[t]) ==> s.owner == None)
       case Wake(t) => s.pcs[t] == Asleep(false)
  }

  function NotifyAll(pcs: seq<Pc>): (r: seq<Pc>)
    ensures |r| == |pcs|
  {
    seq(|pcs|, t requires 0 <= t < |pcs| => if pcs[t] == Asleep(false) then Asleep(true) else pcs[t])
  }

  /** The first step of a call: the atomic on the counter, if any. */
  function Begin(cfg: Config, s: State, t: nat): State
    requires t < |s.pcs| == |cfg.ops|
  {
    match cfg.ops[t]
    case CallSignal =>
      var curr := U64(s.count + 1);
      s.(count := curr, pcs := s.pcs[t := if curr == cfg.need then FastCheck else Returned])
    case CallForce => s.(count := cfg.need, pcs := s.pcs[t := FastCheck])
    case CallWait => s.(pcs := s.pcs[t := WaitLock])
  }

  function Apply(cfg: Config, s: State, l: Label): State
    requires Enabled(cfg, s, l)
  {
    var t := l.t;
    if l.Wake? then s.(pcs := s.pcs[t := Asleep(true)])
    else
      match s.pcs[t]
      case Start => Begin(cfg, s, t)
      case FastCheck => s.(pcs := s.pcs[t := if s.isSet then Returned else Lock])
      case Lock => s.(owner := Some(t), pcs := s.pcs[t := Store])
      case Store => s.(isSet := true, pcs := s.pcs[t := Notify])
      case Notify => s.(pcs := NotifyAll(s.pcs)[t := SetUnlock])
      case SetUnlock => s.(owner := None, pcs := s.pcs[t := Returned])
      case WaitLock => s.(owner := Some(t), pcs := s.pcs[t := WaitCheck])
      case WaitCheck => s.(pcs := s.pcs[t := if s.isSet then WaitUnlock else Sleep])
      case Sleep => s.(owner := None, pcs := s.pcs[t := Asleep(false)])
      case Asleep(_) => s.(owner := Some(t), pcs := s.pcs[t := WaitCheck])
      case WaitUnlock => s.(owner := None, pcs := s.pcs[t := Returned])
      case Returned => s
  }

  /** The state after a run of steps; None when some step was not enabled. */
  function Exec(cfg: Config, labels: seq<Label>): Option<State>
    decreases |labels|
  {
    if labels == [] then Some(Init(cfg))
    else
      match Exec(cfg, labels[..|labels| - 1])
      case None => None
      case Some(s) =>
        var l := labels[|labels| - 1];
        if Enabled(cfg, s, l) then Some(Apply(cfg, s, l)) else None
  }

  // ----- the invariant -----

  predicate InSet(pc: Pc) { pc == FastCheck || pc == Lock || pc == Store || pc == Notify || pc == SetUnlock }

  predicate InWait(pc: Pc) { pc == WaitLock || pc == WaitCheck || pc == Sleep || pc.Asleep? || pc == WaitUnlock }

  /** A thread that has still to store `true`, or to see that someone else did. */
  predicate WillSet(pc: Pc) { pc == FastCheck || pc == Lock || pc == Store }

  ghost predicate SomeoneWillSet(s: State) { exists t: nat :: t < |s.pcs| && WillSet(s.pcs[t]) }

  /** The mutex is held by a thread that has stored `true` and not yet notified. */
  predicate NotifierActive(s: State) {
    s.owner.Some? && s.owner.value < |s.pcs| && s.pcs[s.owner.value] == Notify
  }

  predicate ThreadOk(cfg: Config, s: State, t: nat)
    requires t < |s.pcs| == |cfg.ops|
  {
    var pc := s.pcs[t];
    && (InSet(pc) ==> cfg.ops[t] != CallWait && s.count >= cfg.need)
    && (InWait(pc) ==> cfg.ops[t] == CallWait)
    && (Holds(pc) <==> s.owner == Some(t))
    && (pc == Notify || pc == SetUnlock || pc == WaitUnlock ==> s.isSet)
    && (pc == Returned && cfg.ops[t] == CallWait ==> s.isSet)
    && (pc == Sleep ==> !s.isSet)
    && (pc == Asleep(false) && s.isSet ==> NotifierActive(s))
  }

  /** Threads that have incremented the counter. */
  function SignalFlags(cfg: Config, s: State): seq<nat>
    requires |s.pcs| == |cfg.ops|
  {
    seq(|s.pcs|, t requires 0 <= t < |s.pcs| => if cfg.ops[t] == CallSignal && s.pcs[t] != Start then 1 else 0)
  }

  function Signals(cfg: Config, s: State): nat
    requires |s.pcs| == |cfg.ops|
  {
    Sum(SignalFlags(cfg, s))
  }

  /** Some thread has executed the store of force_signal_all. */
  ghost predicate Forced(cfg: Config, s: State)
    requires |s.pcs| == |cfg.ops|
  {
    exists t: nat :: t < |s.pcs| && cfg.ops[t] == CallForce && s.pcs[t] != Start
  }

  ghost predicate CountOk(cfg: Config, s: State)
    requires |s.pcs| == |cfg.ops|
  {
    && (!Forced(cfg, s) ==> s.count == Signals(cfg, s))
    && (Forced(cfg, s) ==> cfg.need <= s.count <= cfg.need + Signals(cfg, s))
  }

  ghost predicate Inv(cfg: Config, s: State) {
    && cfg.Valid() && |s.pcs| == |cfg.ops|
    && (forall t :: 0 <= t < |s.pcs| ==> ThreadOk(cfg, s, t))
    && (s.owner.Some? ==> s.owner.value < |s.pcs|)
    && (s.isSet ==> s.count >= cfg.need)
    && (s.count >= cfg.need ==> s.isSet || SomeoneWillSet(s))
    && CountOk(cfg, s)
  }

  lemma InitInv(cfg: Config)
    requires cfg.Valid()
    ensures Inv(cfg, Init(cfg))
  {
    SumConstant(SignalFlags(cfg, Init(cfg)), 0);
  }

  lemma SignalsBound(cfg: Config, s: State)
    requires |s.pcs| == |cfg.ops|
    ensures Signals(cfg, s) <= |cfg.ops|
    ensures forall t :: 0 <= t < |s.pcs| && cfg.ops[t] == CallSignal && s.pcs[t] == Start ==> Signals(cfg, s) < |cfg.ops|
  {
    SumFlags(SignalFlags(cfg, s));
    forall t | 0 <= t < |s.pcs| && cfg.ops[t] == CallSignal && s.pcs[t] == Start ensures Signals(cfg, s) < |cfg.ops| {
      assert SignalFlags(cfg, s)[t] == 0;
    }
  }

  /** A step that is not a thread's first leaves the counter's history alone. */
  lemma SameSignals(cfg: Config, s: State, s': State)
    requires |s.pcs| == |cfg.ops| == |s'.pcs|
    requires forall t :: 0 <= t < |s.pcs| ==> (s.pcs[t] == Start <==> s'.pcs[t] == Start)
    ensures Signals(cfg, s') == Signals(cfg, s) && (Forced(cfg, s') <==> Forced(cfg, s))
  {
    assert SignalFlags(cfg, s') == SignalFlags(cfg, s);
  }

  lemma BeginCount(cfg: Config, s: State, t: nat)
    requires cfg.Valid() && |s.pcs| == |cfg.ops| && CountOk(cfg, s) && t < |s.pcs| && s.pcs[t] == Start
    ensures CountOk(cfg, Begin(cfg, s, t))
    ensures cfg.ops[t] == CallSignal ==> Begin(cfg, s, t).count == s.count + 1
  {
    var s' := Begin(cfg, s, t);
    SignalsBound(cfg, s);
    var one := if cfg.ops[t] == CallSignal then 1 else 0;
    SumUpdate(SignalFlags(cfg, s), t, one);
    assert SignalFlags(cfg, s') == SignalFlags(cfg, s)[t := one];
    if cfg.ops[t] == CallForce {
      assert Forced(cfg, s');
    } else {
      forall u: nat | u < |s.pcs| && cfg.ops[u] == CallForce ensures s'.pcs[u] == s.pcs[u] { }
      assert Forced(cfg, s') <==> Forced(cfg, s);
    }
  }

  lemma StepCount(cfg: Config, s: State, l: Label)
    requires Inv(cfg, s) && Enabled(cfg, s, l)
    ensures CountOk(cfg, Apply(cfg, s, l)) && Apply(cfg, s, l).count >= Min(s.count, cfg.need)
    ensures s.count >= cfg.need ==> Apply(cfg, s, l).count >= cfg.need
  {
    if l.Step? && s.pcs[l.t] == Start {
      BeginCount(cfg, s, l.t);
    } else {
      SameSignals(cfg, s, Apply(cfg, s, l));
    }
  }

  /** What a step changes for the threads that do not make it. */
  predicate OthersSee(cfg: Config, s: State, s': State, t: nat)
    requires t < |s.pcs|
  {
    && |s'.pcs| == |s.pcs| && (s.isSet ==> s'.isSet) && (s.count >= cfg.need ==> s'.count >= cfg.need)
    && (s'.owner == s.owner || (s.owner == Some(t) && s'.owner == None) || (s.owner == None && s'.owner == Some(t)))
    && (s'.isSet ==> s.isSet || (s.owner == Some(t) && NotifierActive(s')))
    && (forall u :: 0 <= u < |s.pcs| && u != t ==>
          s'.pcs[u] == s.pcs[u] || (s.pcs[u] == Asleep(false) && s'.pcs[u] == Asleep(true)))
    && (s.owner == Some(t) && s.pcs[t] == Notify
        ==> forall u :: 0 <= u < |s.pcs| && u != t ==> s'.pcs[u] != Asleep(false))
  }

  lemma StepSeen(cfg: Config, s: State, l: Label)
    requires |s.pcs| == |cfg.ops| && l.t < |s.pcs| && ThreadOk(cfg, s, l.t) && Enabled(cfg, s, l)
    requires s.count >= cfg.need ==> Apply(cfg, s, l).count >= cfg.need
    ensures OthersSee(cfg, s, Apply(cfg, s, l), l.t)
  { }

  lemma OtherThread(cfg: Config, s: State, s': State, t: nat, u: nat)
    requires |s.pcs| == |cfg.ops| && t < |s.pcs| && u < |s.pcs| && u != t
    requires ThreadOk(cfg, s, t) && ThreadOk(cfg, s, u) && OthersSee(cfg, s, s', t)
    ensures ThreadOk(cfg, s', u)
  { }

  lemma OwnThread(cfg: Config, s: State, l: Label)
    requires cfg.Valid() && |s.pcs| == |cfg.ops| && l.t < |s.pcs| && ThreadOk(cfg, s, l.t) && Enabled(cfg, s, l)
    requires s.count >= cfg.need ==> Apply(cfg, s, l).count >= cfg.need
    ensures ThreadOk(cfg, Apply(cfg, s, l), l.t)
  { }

  lemma StepThreads(cfg: Config, s: State, l: Label)
    requires Inv(cfg, s) && Enabled(cfg, s, l)
    ensures var s' := Apply(cfg, s, l);
            |s'.pcs| == |cfg.ops| && (forall u :: 0 <= u < |s'.pcs| ==> ThreadOk(cfg, s', u))
            && (s'.owner.Some? ==> s'.owner.value < |s'.pcs|)
  {
    var s' := Apply(cfg, s, l);
    StepCount(cfg, s, l);
    StepSeen(cfg, s, l);
    forall u | 0 <= u < |s'.pcs| ensures ThreadOk(cfg, s', u) {
      if u == l.t { OwnThread(cfg, s, l); } else { OtherThread(cfg, s, s', l.t, u); }
    }
  }

  /** Once the count is reached, the flag is set or some thread is on its way to set it. */
  lemma StepSetter(cfg: Config, s: State, l: Label)
    requires Inv(cfg, s) && Enabled(cfg, s, l)
    ensures var s' := Apply(cfg, s, l); s'.count >= cfg.need ==> s'.isSet || SomeoneWillSet(s')
    ensures var s' := Apply(cfg, s, l); s'.isSet ==> s'.count >= cfg.need
  {
    var s' := Apply(cfg, s, l);
    var t := l.t;
    assert ThreadOk(cfg, s, t);
    StepCount(cfg, s, l);
    if s'.count >= cfg.need && !s'.isSet {
      if s.count < cfg.need {
        BeginCount(cfg, s, t);
        assert WillSet(s'.pcs[t]);
      } else {
        var u: nat :| u < |s.pcs| && WillSet(s.pcs[u]);
        assert WillSet(s'.pcs[u]);
      }
    }
  }

  lemma StepInv(cfg: Config, s: State, l: Label)
    requires Inv(cfg, s) && Enabled(cfg, s, l)
    ensures Inv(cfg, Apply(cfg, s, l))
  {
    StepCount(cfg, s, l);
    StepThreads(cfg, s, l);
    StepSetter(cfg, s, l);
  }

  lemma {:induction false} RunInv(cfg: Config, labels: seq<Label>)
    requires cfg.Valid() && Exec(cfg, labels).Some?
    ensures Inv(cfg, Exec(cfg, labels).value)
    decreases |labels|
  {
    if labels == [] {
      InitInv(cfg);
    } else {
      RunInv(cfg, labels[..|labels| - 1]);
      StepInv(cfg, Exec(cfg, labels[..|labels| - 1]).value, labels[|labels| - 1]);
    }
  }

  // ----- safety -----

  /** In every run in which nothing was forced: a waiter that returned, or a can_pass that
      answers true, means at least `need` signals were made, and the counter is their number. */
  lemma NoEarlyPass(cfg: Config, labels: seq<Label>, t: nat)
    requires cfg.Valid() && Exec(cfg, labels).Some? && t < |cfg.ops|
    ensures |Exec(cfg, labels).value.pcs| == |cfg.ops|
    ensures var s := Exec(cfg, labels).value;
            && (!Forced(cfg, s) ==> s.count == Signals(cfg, s))
            && ((cfg.ops[t] == CallWait && s.pcs[t] == Returned) || s.count >= cfg.need
                ==> Forced(cfg, s) || Signals(cfg, s) >= cfg.need)
  {
    RunInv(cfg, labels);
    var s := Exec(cfg, labels).value;
    assert ThreadOk(cfg, s, t);
  }

  /** can_pass never goes back to false, and a set event stays set, whatever else happens. */
  lemma {:induction false} CanPassIsStable(cfg: Config, labels: seq<Label>, more: seq<Label>)
    requires cfg.Valid() && Exec(cfg, labels).Some? && Exec(cfg, labels + more).Some?
    ensures Exec(cfg, labels).value.count >= cfg.need ==> Exec(cfg, labels + more).value.count >= cfg.need
    ensures Exec(cfg, labels).value.isSet ==> Exec(cfg, labels + more).value.isSet
    decreases |more|
  {
    if more == [] {
      assert labels + more == labels;
    } else {
      var prev := labels + more[..|more| - 1];
      assert (labels + more)[..|labels + more| - 1] == prev;
      CanPassIsStable(cfg, labels, more[..|more| - 1]);
      RunInv(cfg, prev);
      StepCount(cfg, Exec(cfg, prev).value, (labels + more)[|labels + more| - 1]);
    }
  }

  /** No lost wakeup: in every run, once the gate can be passed and no call that reached the
      count is still inside set(), the event is set and no waiter is asleep un-notified. */
  lemma NoLostWakeup(cfg: Config, labels: seq<Label>)
    requires cfg.Valid() && Exec(cfg, labels).Some?
    requires var s := Exec(cfg, labels).value;
             s.count >= cfg.need && forall t :: 0 <= t < |s.pcs| ==> !InSet(s.pcs[t])
    ensures var s := Exec(cfg, labels).value;
            s.isSet && forall t :: 0 <= t < |s.pcs| ==> s.pcs[t] != Asleep(false) && s.pcs[t] != Sleep
  {
    RunInv(cfg, labels);
    var s := Exec(cfg, labels).value;
    forall t | 0 <= t < |s.pcs| ensures s.pcs[t] != Asleep(false) && s.pcs[t] != Sleep {
      assert ThreadOk(cfg, s, t);
    }
  }

  /** With a set event, a waiter is asleep un-notified only while another thread holds the
      mutex between the store and the notification. */
  lemma AsleepOnlyBeforeNotify(cfg: Config, labels: seq<Label>, t: nat)
    requires cfg.Valid() && Exec(cfg, labels).Some?
    requires var s := Exec(cfg, labels).value; t < |s.pcs| && s.isSet && s.pcs[t] == Asleep(false)
    ensures NotifierActive(Exec(cfg, labels).value)
  {
    RunInv(cfg, labels);
    assert ThreadOk(cfg, Exec(cfg, labels).value, t);
  }

  /** One more step of a run. */
  lemma Extend(cfg: Config, labels: seq<Label>, l: Label, s: State, next: State) returns (longer: seq<Label>)
    requires Exec(cfg, labels) == Some(s) && Enabled(cfg, s, l) && Apply(cfg, s, l) == next
    ensures Exec(cfg, longer) == Some(next)
  {
    longer := labels + [l];
    assert longer[..|labels|] == labels;
  }

  lemma NothingDone(cfg: Config)
    requires |cfg.ops| == 3
    ensures Exec(cfg, []) == Some(State(0, false, None, [Start, Start, Start]))
  {
    assert Init(cfg).pcs == [Start, Start, Start];
  }

  /** The waiter falls asleep. */
  lemma WaiterSleeps(cfg: Config) returns (labels: seq<Label>)
    requires cfg == Config([CallWait, CallSignal, CallForce], 1)
    ensures Exec(cfg, labels) == Some(State(0, false, None, [Asleep(false), Start, Start]))
  {
    labels := [];
    NothingDone(cfg);
    labels := Extend(cfg, labels, Step(0), State(0, false, None, [Start, Start, Start]),
                     State(0, false, None, [WaitLock, Start, Start]));
    labels := Extend(cfg, labels, Step(0), State(0, false, None, [WaitLock, Start, Start]),
                     State(0, false, Some(0), [WaitCheck, Start, Start]));
    labels := Extend(cfg, labels, Step(0), State(0, false, Some(0), [WaitCheck, Start, Start]),
                     State(0, false, Some(0), [Sleep, Start, Start]));
    labels := Extend(cfg, labels, Step(0), State(0, false, Some(0), [Sleep, Start, Start]),
                     State(0, false, None, [Asleep(false), Start, Start]));
  }

  /** The fast path of set() lets a force return while a waiter is still asleep: it races with
      the signal that reached the count, sees that signal's store and returns before the
      signal notifies. Module GateRace says when this can happen. */
  lemma FastPathReturnsEarly() returns (cfg: Config, labels: seq<Label>)
    ensures cfg.Valid() && cfg.ops == [CallWait, CallSignal, CallForce] && cfg.need == 1
    ensures Exec(cfg, labels) == Some(State(1, true, Some(1), [Asleep(false), Notify, Returned]))
  {
    cfg := Config([CallWait, CallSignal, CallForce], 1);
    labels := WaiterSleeps(cfg);
    labels := Extend(cfg, labels, Step(1), State(0, false, None, [Asleep(false), Start, Start]),
                     State(1, false, None, [Asleep(false), FastCheck, Start]));
    labels := Extend(cfg, labels, Step(1), State(1, false, None, [Asleep(false), FastCheck, Start]),
                     State(1, false, None, [Asleep(false), Lock, Start]));
    labels := Extend(cfg, labels, Step(1), State(1, false, None, [Asleep(false), Lock, Start]),
                     State(1, false, Some(1), [Asleep(false), Store, Start]));
    labels := Extend(cfg, labels, Step(1), State(1, false, Some(1), [Asleep(false), Store, Start]),
                     State(1, true, Some(1), [Asleep(false), Notify, Start]));
    labels := Extend(cfg, labels, Step(2), State(1, true, Some(1), [Asleep(false), Notify, Start]),
                     State(1, true, Some(1), [Asleep(false), Notify, FastCheck]));
    labels := Extend(cfg, labels, Step(2), State(1, true, Some(1), [Asleep(false), Notify, FastCheck]),
                     State(1, true, Some(1), [Asleep(false), Notify, Returned]));
  }

  /** A waiter woken without reason before the event is set takes the mutex, looks, and sleeps
      again, with nothing else changed. */
  lemma SpuriousWakeSleepsAgain(cfg: Config, s: State, t: nat)
    requires |s.pcs| == |cfg.ops| && t < |s.pcs| && s.pcs[t] == Asleep(false) && s.owner == None && !s.isSet
    ensures Enabled(cfg, s, Wake(t)) && var s1 := Apply(cfg, s, Wake(t));
            s1.pcs[t] != Asleep(false) && Enabled(cfg, s1, Step(t)) && var s2 := Apply(cfg, s1, Step(t));
            s2.owner == Some(t) && Enabled(cfg, s2, Step(t)) && var s3 := Apply(cfg, s2, Step(t));
            Enabled(cfg, s3, Step(t)) && Apply(cfg, s3, Step(t)) == s
  {
    var s1 := Apply(cfg, s, Wake(t));
    var s2 := Apply(cfg, s1, Step(t));
    var s3 := Apply(cfg, s2, Step(t));
    assert Apply(cfg, s3, Step(t)).pcs == s.pcs;
  }

  // ----- progress -----

  /** A thread that has not returned and cannot step is blocked behind the mutex, whose owner
      can step, or asleep un-notified. */
  lemma NotStuck(cfg: Config, s: State) returns (l: Label)
    requires Inv(cfg, s)
    requires exists t: nat :: t < |s.pcs| && s.pcs[t] != Returned && s.pcs[t] != Asleep(false)
    ensures Enabled(cfg, s, l) && l.Step?
  {
    var t: nat :| t < |s.pcs| && s.pcs[t] != Returned && s.pcs[t] != Asleep(false);
    if s.owner == None {
      l := Step(t);
    } else {
      var o := s.owner.value;
      assert ThreadOk(cfg, s, o);
      l := Step(if TakesMutex(s.pcs[t]) then o else t);
    }
  }

  /** What is left of one call. A spurious wakeup costs at most three more steps. */
  function Rank(isSet: bool, pc: Pc): nat {
    match pc
    case Start => 11
    case FastCheck => 6 case Lock => 5 case Store => 4 case Notify => 3 case SetUnlock => 2
    case WaitLock => 10
    case WaitCheck => if isSet then 4 else 8
    case Sleep => 7
    case Asleep(notified) => if !notified then 6 else if isSet then 5 else 9
    case WaitUnlock => 3
    case Returned => 0
  }

  function Ranks(s: State): seq<nat> { seq(|s.pcs|, t requires 0 <= t < |s.pcs| => Rank(s.isSet, s.pcs[t])) }

  lemma {:induction false} SumLess(a: seq<nat>, b: seq<nat>, i: nat, d: int)
    requires |a| == |b| && i < |a| && a[i] <= b[i] + d
    requires forall k :: 0 <= k < |a| && k != i ==> a[k] <= b[k]
    ensures Sum(a) <= Sum(b) + d
  {
    if i == 0 {
      if |a| > 1 {
        SumLess(a[1..], b[1..], 0, 0);
      }
    } else {
      SumLess(a[1..], b[1..], i - 1, d);
    }
  }

  lemma OtherRank(cfg: Config, s: State, s': State, t: nat, u: nat)
    requires |s.pcs| == |cfg.ops| && t < |s.pcs| && u < |s.pcs| && u != t && OthersSee(cfg, s, s', t)
    requires ThreadOk(cfg, s, t) && (s.pcs[u] == Asleep(false) && s'.pcs[u] == Asleep(true) ==> s'.isSet)
    ensures Rank(s'.isSet, s'.pcs[u]) <= Rank(s.isSet, s.pcs[u])
  { }

  lemma OwnRank(cfg: Config, s: State, l: Label)
    requires |s.pcs| == |cfg.ops| && l.t < |s.pcs| && ThreadOk(cfg, s, l.t) && Enabled(cfg, s, l)
    ensures var s' := Apply(cfg, s, l);
            Rank(s'.isSet, s'.pcs[l.t]) <= Rank(s.isSet, s.pcs[l.t]) + if l.Step? then -1 else 3
  { }

  lemma OthersNotified(cfg: Config, s: State, l: Label, u: nat)
    requires Enabled(cfg, s, l) && ThreadOk(cfg, s, l.t) && u < |s.pcs| && u != l.t
    requires s.pcs[u] == Asleep(false) && Apply(cfg, s, l).pcs[u] == Asleep(true)
    ensures Apply(cfg, s, l).isSet
  { }

  /** Every step shortens what is left; a spurious wakeup adds at most three. */
  lemma StepRank(cfg: Config, s: State, l: Label)
    requires Inv(cfg, s) && Enabled(cfg, s, l)
    ensures Sum(Ranks(Apply(cfg, s, l))) <= Sum(Ranks(s)) + if l.Step? then -1 else 3
  {
    var s' := Apply(cfg, s, l);
    StepCount(cfg, s, l);
    StepSeen(cfg, s, l);
    OwnRank(cfg, s, l);
    forall u | 0 <= u < |s.pcs| && u != l.t ensures Ranks(s')[u] <= Ranks(s)[u] {
      if s.pcs[u] == Asleep(false) && s'.pcs[u] == Asleep(true) { OthersNotified(cfg, s, l, u); }
      OtherRank(cfg, s, s', l.t, u);
    }
    SumLess(Ranks(s'), Ranks(s), l.t, if l.Step? then -1 else 3);
  }

  function Wakes(labels: seq<Label>): nat
    decreases |labels|
  {
    if labels == [] then 0 else Wakes(labels[..|labels| - 1]) + if labels[|labels| - 1].Wake? then 1 else 0
  }

  /** Eleven steps per thread, and four for each spurious wakeup, bound every run. */
  lemma {:induction false} RunsEnd(cfg: Config, labels: seq<Label>)
    requires cfg.Valid() && Exec(cfg, labels).Some?
    ensures |labels| + Sum(Ranks(Exec(cfg, labels).value)) <= 11 * |cfg.ops| + 4 * Wakes(labels)
    decreases |labels|
  {
    if labels == [] {
      SumConstant(Ranks(Init(cfg)), 11);
    } else {
      var prev := labels[..|labels| - 1];
      RunsEnd(cfg, prev);
      RunInv(cfg, prev);
      StepRank(cfg, Exec(cfg, prev).value, labels[|labels| - 1]);
    }
  }

  /** The calls the gate was built for. */
  ghost predicate WillOpen(cfg: Config) {
    (exists t: nat :: t < |cfg.ops| && cfg.ops[t] == CallForce) || SignalCalls(cfg) >= cfg.need
  }

  function SignalCalls(cfg: Config): nat {
    Sum(seq(|cfg.ops|, t requires 0 <= t < |cfg.ops| => if cfg.ops[t] == CallSignal then 1 else 0))
  }

  /** A run that cannot go on has every thread returned, except waiters asleep in front of a
      gate that got neither enough signals nor a force; all of them, when there is one. */
  lemma GateTheorem(cfg: Config, labels: seq<Label>)
    requires cfg.Valid() && Exec(cfg, labels).Some?
    requires forall l: Label :: l.Step? ==> !Enabled(cfg, Exec(cfg, labels).value, l)
    ensures var s := Exec(cfg, labels).value;
            && |s.pcs| == |cfg.ops|
            && forall t :: 0 <= t < |cfg.ops| ==>
                 s.pcs[t] == if cfg.ops[t] == CallWait && !WillOpen(cfg) then Asleep(false) else Returned
  {
    RunInv(cfg, labels);
    var s := Exec(cfg, labels).value;
    if t: nat :| t < |s.pcs| && s.pcs[t] != Returned && s.pcs[t] != Asleep(false) {
      var l := NotStuck(cfg, s);
      assert false;
    }
    OpenedOrNot(cfg, s);
    forall t | 0 <= t < |cfg.ops|
      ensures s.pcs[t] == if cfg.ops[t] == CallWait && !WillOpen(cfg) then Asleep(false) else Returned
    {
      assert ThreadOk(cfg, s, t);
    }
  }

  /** When nothing but returned calls and sleepers is left, all signals and forces are done. */
  lemma OpenedOrNot(cfg: Config, s: State)
    requires Inv(cfg, s) && forall t :: 0 <= t < |s.pcs| ==> s.pcs[t] == Returned || s.pcs[t] == Asleep(false)
    ensures s.isSet <==> WillOpen(cfg)
    ensures !NotifierActive(s)
  {
    assert !NotifierActive(s);
    forall t | 0 <= t < |s.pcs| && cfg.ops[t] != CallWait ensures s.pcs[t] == Returned {
      assert ThreadOk(cfg, s, t);
    }
    assert SignalFlags(cfg, s) == seq(|cfg.ops|, t requires 0 <= t < |cfg.ops| => if cfg.ops[t] == CallSignal then 1 else 0);
    assert !SomeoneWillSet(s);
    assert Forced(cfg, s) <==> exists t: nat :: t < |cfg.ops| && cfg.ops[t] == CallForce;
  }
}
