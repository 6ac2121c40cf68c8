/** The handle of an accepted portal thread (src/server.cpp:40-44, 304-341, 666-675, 739-769):
    detached by the sweeper when the thread does not become a client's portal thread, joined by
    that client's dispose_impl when it does. The dispose calls on the client are those of module
    Disposable, any number of them; call 0 is the async_dispose(false) on the way out of
    fn_portal. One step is one step of such a call, or one of the thread itself. */
module PortalHandle {
  import opened Basics
  import D = Disposable

  /** Where the accepted thread is. From InPortal on, the client exists. */
  datatype Pc = Accepted | Sweeping | InPortal | Leaving | Ended(swept: bool)

  /** `joined` and `detached` count what happened to the handle; `broken` records a join of a
      handle that is not joinable. */
  datatype State = State(pc: Pc, client: D.State, joined: nat, detached: nat, broken: bool)

  /** `Turn`: any failure up to the lock, or a server going down, or a new client. */
  datatype Label = Turn(admitted: bool) | Detach | Return | CleanUp | Dispose(l: D.Label)

  predicate OpsOk(ops: seq<D.Op>) { ops != [] && ops[0] == D.CallAsync(false) }

  function Init(ops: seq<D.Op>): State { State(Accepted, D.Init(ops), 0, 0, false) }

  predicate HasClient(pc: Pc) { pc == InPortal || pc == Leaving || pc == Ended(false) }

  /** The step that completes dispose_impl; it has joined the portal thread by then. */
  predicate Completes(s: D.State, l: D.Label) {
    match l
    case CallerStep(t) => t < |s.callers| && s.callers[t] == D.InImpl
    case WorkerStep(t) => t < |s.workers| && s.workers[t] == D.WorkerInImpl
  }

  predicate Enabled(ops: seq<D.Op>, s: State, l: Label) {
    match l
    case Turn(_) => s.pc == Accepted
    case Detach => s.pc == Sweeping
    case Return => s.pc == InPortal
    case CleanUp => s.pc == Leaving && D.Enabled(ops, s.client, D.CallerStep(0))
    case Dispose(d) =>
      && HasClient(s.pc) && d != D.CallerStep(0) && D.Enabled(ops, s.client, d)
      && (Completes(s.client, d) ==> s.pc == Ended(false))
  }

  function Apply(ops: seq<D.Op>, s: State, l: Label): State
    requires Enabled(ops, s, l)
  {
    match l
    case Turn(admitted) => s.(pc := if admitted then InPortal else Sweeping)
    case Detach => s.(pc := Ended(true), detached := s.detached + 1)
    case Return => s.(pc := Leaving)
    case CleanUp => s.(pc := Ended(false), client := D.Apply(ops, s.client, D.CallerStep(0)))
    case Dispose(d) =>
      var s' := s.(client := D.Apply(ops, s.client, d));
      if Completes(s.client, d) then s'.(joined := s.joined + 1, broken := s.broken || s.joined + s.detached != 0) else s'
  }

  function Exec(ops: seq<D.Op>, labels: seq<Label>): Option<State>
    decreases |labels|
  {
    if labels == [] then Some(Init(ops))
    else
      match Exec(ops, labels[..|labels| - 1])
      case None => None
      case Some(s) =>
        var l := labels[|labels| - 1];
        if Enabled(ops, s, l) then Some(Apply(ops, s, l)) else None
  }

  /** The steps of the dispose calls in a run. */
  function Calls(labels: seq<Label>): seq<D.Label>
    decreases |labels|
  {
    if labels == [] then []
    else
      Calls(labels[..|labels| - 1])
      + match labels[|labels| - 1]
        case CleanUp => [D.CallerStep(0)]
        case Dispose(d) => [d]
        case _ => []
  }

  lemma {:induction false} CallsRun(ops: seq<D.Op>, labels: seq<Label>)
    requires Exec(ops, labels).Some?
    ensures D.Exec(ops, Calls(labels)) == Some(Exec(ops, labels).value.client)
    decreases |labels|
  {
    if labels != [] {
      var before := Calls(labels[..|labels| - 1]);
      CallsRun(ops, labels[..|labels| - 1]);
      if Calls(labels) != before {
        assert Calls(labels)[..|before|] == before;
      }
    }
  }

  // ----- the invariant -----

  /** dispose_impl is complete, but its status is not stored yet. */
  predicate Storing(s: D.State, t: nat) {
    t < |s.callers| == |s.workers| && (s.callers[t] == D.StoreDisposed || s.workers[t] == D.WorkerStore)
  }

  ghost predicate ImplDone(s: D.State) { s.status == D.Disposed || exists t: nat :: Storing(s, t) }

  ghost predicate Inv(ops: seq<D.Op>, s: State) {
    && D.Inv(ops, s.client) && OpsOk(ops) && !s.broken
    && s.joined == (if ImplDone(s.client) then 1 else 0)
    && s.detached == (if s.pc == Ended(true) then 1 else 0)
    && (s.joined == 1 ==> s.pc == Ended(false))
    && (!HasClient(s.pc) ==> s.client == D.Init(ops))
    && s.client.callers[0] == (if s.pc == Ended(false) then D.Returned else D.Start)
  }

  /** Only the completing step makes dispose_impl done. */
  lemma DoneStep(ops: seq<D.Op>, s: D.State, l: D.Label)
    requires D.Inv(ops, s) && D.Enabled(ops, s, l)
    ensures D.Inv(ops, D.Apply(ops, s, l))
    ensures Completes(s, l) ==> !ImplDone(s) && ImplDone(D.Apply(ops, s, l))
    ensures !Completes(s, l) ==> (ImplDone(D.Apply(ops, s, l)) <==> ImplDone(s))
  {
    var s' := D.Apply(ops, s, l);
    D.StepCalls(ops, s, l);
    D.StepWinner(ops, s, l);
    assert D.CallOk(ops, s, l.t) && D.CallOk(ops, s', l.t);
    if Completes(s, l) {
      assert Storing(s', l.t);
      forall t: nat | Storing(s, t) ensures false {
        D.OneWinner(ops, s, t, l.t);
      }
    } else {
      forall t: nat | t != l.t ensures Storing(s', t) <==> Storing(s, t) { }
      assert Storing(s', l.t) ==> Storing(s, l.t);
      assert Storing(s, l.t) ==> s'.status == D.Disposed;
      if s.status == D.Disposed { assert s'.status == D.Disposed; }
    }
  }

  lemma StepInv(ops: seq<D.Op>, s: State, l: Label)
    requires Inv(ops, s) && Enabled(ops, s, l)
    ensures Inv(ops, Apply(ops, s, l))
  {
    match l
    case CleanUp => DoneStep(ops, s.client, D.CallerStep(0));
    case Dispose(d) =>
      DoneStep(ops, s.client, d);
      assert D.CallOk(ops, s.client, 0);
    case _ =>
  }

  lemma {:induction false} RunInv(ops: seq<D.Op>, labels: seq<Label>)
    requires OpsOk(ops) && Exec(ops, labels).Some?
    ensures Inv(ops, Exec(ops, labels).value)
    decreases |labels|
  {
    if labels != [] {
      RunInv(ops, labels[..|labels| - 1]);
      StepInv(ops, Exec(ops, labels[..|labels| - 1]).value, labels[|labels| - 1]);
    }
  }

  /** In every run the handle is joined or detached at most once, never both: joined only after
      the thread has ended as a portal thread, and then for the first time, detached only by the
      sweeper. */
  lemma HandleSafe(ops: seq<D.Op>, labels: seq<Label>)
    requires OpsOk(ops) && Exec(ops, labels).Some?
    ensures var s := Exec(ops, labels).value;
            && s.joined + s.detached <= 1 && !s.broken
            && (forall d :: Enabled(ops, s, Dispose(d)) && Completes(s.client, d) ==> s.joined + s.detached == 0)
            && (s.joined == 1 ==> s.pc == Ended(false)) && (s.detached == 1 <==> s.pc == Ended(true))
  {
    RunInv(ops, labels);
    var s := Exec(ops, labels).value;
    forall d | Enabled(ops, s, Dispose(d)) && Completes(s.client, d) ensures s.joined + s.detached == 0 {
      DoneStep(ops, s.client, d);
    }
  }

  // ----- progress -----

  function PcRank(pc: Pc): nat { match pc case Accepted => 2 case Sweeping => 1 case InPortal => 1 case _ => 0 }

  lemma {:induction false} ThreadSteps(ops: seq<D.Op>, labels: seq<Label>)
    requires Exec(ops, labels).Some?
    ensures |labels| + PcRank(Exec(ops, labels).value.pc) <= |Calls(labels)| + 2
    decreases |labels|
  {
    if labels != [] { ThreadSteps(ops, labels[..|labels| - 1]); }
  }

  /** Five steps per dispose call, and two of the thread, bound every run. */
  lemma RunsEnd(ops: seq<D.Op>, labels: seq<Label>)
    requires Exec(ops, labels).Some?
    ensures |labels| <= 5 * |ops| + 2
  {
    CallsRun(ops, labels);
    ThreadSteps(ops, labels);
    D.RunsEnd(ops, Calls(labels));
  }

  /** The thread became a client's portal thread in this run, or it turned away. */
  lemma {:induction false} TurnOfRun(ops: seq<D.Op>, labels: seq<Label>)
    requires Exec(ops, labels).Some?
    ensures var pc := Exec(ops, labels).value.pc;
            && (Turn(true) in labels <==> pc == InPortal || pc == Leaving || pc == Ended(false))
            && (Turn(false) in labels <==> pc == Sweeping || pc == Ended(true))
    decreases |labels|
  {
    if labels != [] {
      var n := |labels| - 1;
      assert labels == labels[..n] + [labels[n]];
      TurnOfRun(ops, labels[..n]);
    }
  }

  /** A run that cannot go on has settled the handle: joined exactly when the thread became a
      client's portal thread, whatever dispose calls competed, detached exactly when not. */
  lemma HandleSettled(ops: seq<D.Op>, labels: seq<Label>)
    requires OpsOk(ops) && Exec(ops, labels).Some?
    requires forall l :: !Enabled(ops, Exec(ops, labels).value, l)
    ensures var s := Exec(ops, labels).value;
            && s.pc.Ended? && s.joined + s.detached == 1 && (s.detached == 1 <==> s.pc == Ended(true))
            && (s.joined == 1 <==> s.client.status == D.Disposed)
            && (s.joined == 1 <==> Turn(true) in labels) && (s.detached == 1 <==> Turn(false) in labels)
  {
    RunInv(ops, labels);
    TurnOfRun(ops, labels);
    CallsRun(ops, labels);
    var s := Exec(ops, labels).value;
    assert !Enabled(ops, s, Turn(true)) && !Enabled(ops, s, Detach) && !Enabled(ops, s, Return);
    assert !Enabled(ops, s, CleanUp);
    if s.pc == Ended(false) {
      forall d ensures !D.Enabled(ops, s.client, d) {
        assert !Enabled(ops, s, Dispose(d));
      }
      D.DisposeCompletes(ops, Calls(labels));
    }
  }
}
