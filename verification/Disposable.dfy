/** `disposable` (src/infra/disposable.h:11-94): any number of concurrent dispose and
    async_dispose calls on one object, as a machine whose steps are the atomic operations on
    the status, and the calls as written against a status that other threads advance. */
module Disposable {
  import opened Basics

  datatype Status = Normal | Disposing | Disposed

  function StatusRank(s: Status): nat {
    match s case Normal => 0 case Disposing => 1 case Disposed => 2
  }

  datatype Op = CallDispose | CallAsync(waitForDone: bool)

  /** A call that promises to return only when disposing is done. */
  predicate Waits(op: Op) { op == CallDispose || op == CallAsync(true) }

  datatype Caller = Start | InImpl | StoreDisposed | Join | Poll | Returned

  /** The thread an async_dispose call creates. */
  datatype Worker = NotCreated | Created | WorkerInImpl | WorkerStore | Ended

  /** `implStarts` counts the calls of dispose_impl; `broken` records a failed assert. */
  datatype State = State(status: Status, callers: seq<Caller>, workers: seq<Worker>, implStarts: nat, broken: bool)

  datatype Label = CallerStep(t: nat) | WorkerStep(t: nat)

  function Init(ops: seq<Op>): State {
    State(Normal, seq(|ops|, _ => Start), seq(|ops|, _ => NotCreated), 0, false)
  }

  predicate Enabled(ops: seq<Op>, s: State, l: Label) {
    && |s.callers| == |s.workers| == |ops| && l.t < |ops|
    && match l
       case CallerStep(t) =>
         (match s.callers[t]
          case Join => s.workers[t] == Ended
          case Poll => s.status != Disposing
          case Returned => false
          case _ => true)
       case WorkerStep(t) => s.workers[t] != NotCreated && s.workers[t] != Ended
  }

  /** compare_exchange_strong(NORMAL, DISPOSING) and what the call does with its outcome. */
  function Exchange(ops: seq<Op>, s: State, t: nat): State
    requires |s.callers| == |s.workers| == |ops| && t < |ops|
  {
    if s.status == Normal then
      if ops[t] == CallDispose then
        s.(status := Disposing, callers := s.callers[t := InImpl], implStarts := s.implStarts + 1)
      else
        s.(status := Disposing, workers := s.workers[t := Created],
           callers := s.callers[t := if ops[t].waitForDone then Join else Returned])
    else
      s.(callers := s.callers[t := if s.status == Disposing && Waits(ops[t]) then Poll else Returned])
  }

  function Apply(ops: seq<Op>, s: State, l: Label): State
    requires Enabled(ops, s, l)
  {
    var t := l.t;
    match l
    case CallerStep(_) =>
      (match s.callers[t]
       case Start => Exchange(ops, s, t)
       case InImpl => s.(callers := s.callers[t := StoreDisposed])
       case StoreDisposed => s.(status := Disposed, callers := s.callers[t := Returned])
       case Join => s.(callers := s.callers[t := Returned])
       case Poll => s.(callers := s.callers[t := Returned], broken := s.broken || s.status != Disposed)
       case Returned => s)
    case WorkerStep(_) =>
      (match s.workers[t]
       case Created => s.(workers := s.workers[t := WorkerInImpl], implStarts := s.implStarts + 1)
       case WorkerInImpl => s.(workers := s.workers[t := WorkerStore])
       case WorkerStore => s.(status := Disposed, workers := s.workers[t := Ended])
       case _ => s)
  }

  function Exec(ops: seq<Op>, labels: seq<Label>): Option<State>
    decreases |labels|
  {
    if labels == [] then Some(Init(ops))
    else
      match Exec(ops, labels[..|labels| - 1])
      case None => None
      case Some(s) =>
        var l := labels[|labels| - 1];
        if Enabled(ops, s, l) then Some(Apply(ops, s, l)) else None
  }

  // ----- the invariant -----

  /** Is thread t, or the thread it created, on the way from the exchange to the store? */
  predicate Winner(s: State, t: nat)
    requires t < |s.callers| == |s.workers|
  {
    || s.callers[t] == InImpl || s.callers[t] == StoreDisposed
    || s.workers[t] == Created || s.workers[t] == WorkerInImpl || s.workers[t] == WorkerStore
  }

  /** The winner started dispose_impl already. */
  predicate Began(s: State, t: nat)
    requires t < |s.callers| == |s.workers|
  {
    Winner(s, t) && s.workers[t] != Created
  }

  predicate CallOk(ops: seq<Op>, s: State, t: nat)
    requires t < |ops| == |s.callers| == |s.workers|
  {
    && (s.callers[t] == Join ==> s.workers[t] != NotCreated)
    && (s.workers[t] != NotCreated ==> s.callers[t] == Join || s.callers[t] == Returned)
    && (s.callers[t] == Poll ==> s.status != Normal)
    && (ops[t] == CallAsync(false) ==> s.callers[t] == Start || s.callers[t] == Returned)
    && (s.callers[t] == Returned && Waits(ops[t]) ==> s.status == Disposed)
    && (s.workers[t] == Ended ==> s.status == Disposed)
    && (Winner(s, t) ==> s.status == Disposing)
  }

  ghost predicate WinnerOk(s: State)
    requires |s.callers| == |s.workers|
  {
    && (s.status == Normal ==> s.implStarts == 0)
    && (s.status == Disposing ==>
          exists w: nat :: w < |s.callers| && Winner(s, w) && s.implStarts == (if Began(s, w) then 1 else 0)
                           && forall t: nat :: t < |s.callers| && Winner(s, t) ==> t == w)
    && (s.status == Disposed ==> s.implStarts == 1)
  }

  ghost predicate Inv(ops: seq<Op>, s: State) {
    && |s.callers| == |s.workers| == |ops| && !s.broken
    && (forall t :: 0 <= t < |ops| ==> CallOk(ops, s, t))
    && WinnerOk(s)
  }

  lemma OneWinner(ops: seq<Op>, s: State, t: nat, u: nat)
    requires Inv(ops, s) && t < |ops| && u < |ops| && Winner(s, t) && Winner(s, u)
    ensures t == u && s.implStarts == (if Began(s, t) then 1 else 0)
  {
    assert CallOk(ops, s, t);
    var w: nat :| w < |s.callers| && Winner(s, w) && s.implStarts == (if Began(s, w) then 1 else 0)
                  && forall v: nat :: v < |s.callers| && Winner(s, v) ==> v == w;
  }

  lemma StepCalls(ops: seq<Op>, s: State, l: Label)
    requires Inv(ops, s) && Enabled(ops, s, l)
    ensures var s' := Apply(ops, s, l);
            && |s'.callers| == |s'.workers| == |ops| && !s'.broken
            && forall t :: 0 <= t < |ops| ==> CallOk(ops, s', t)
  {
    var s' := Apply(ops, s, l);
    assert CallOk(ops, s, l.t);
    forall t | 0 <= t < |ops| ensures CallOk(ops, s', t) {
      assert CallOk(ops, s, t);
      if Winner(s, t) && Winner(s, l.t) { OneWinner(ops, s, t, l.t); }
    }
  }

  /** The exchange succeeds: a winner appears. */
  lemma WinnerAppears(ops: seq<Op>, s: State, l: Label)
    requires Inv(ops, s) && Enabled(ops, s, l) && s.status == Normal
    ensures |Apply(ops, s, l).callers| == |Apply(ops, s, l).workers| && WinnerOk(Apply(ops, s, l))
  {
    var s' := Apply(ops, s, l);
    assert CallOk(ops, s, l.t);
    if s'.status == Disposing {
      forall t: nat | t < |s'.callers| && Winner(s', t) ensures t == l.t { assert CallOk(ops, s, t); }
      assert Winner(s', l.t);
    }
  }

  lemma WinnerMoves(ops: seq<Op>, s: State, l: Label)
    requires Inv(ops, s) && Enabled(ops, s, l) && s.status == Disposing && Winner(s, l.t)
    ensures |Apply(ops, s, l).callers| == |Apply(ops, s, l).workers| && WinnerOk(Apply(ops, s, l))
  {
    var s' := Apply(ops, s, l);
    OneWinner(ops, s, l.t, l.t);
    assert CallOk(ops, s, l.t);
    forall t: nat | t < |s'.callers| && Winner(s', t) ensures t == l.t {
      if t != l.t {
        assert Winner(s, t);
        OneWinner(ops, s, t, l.t);
      }
    }
    if s'.status == Disposing { assert Winner(s', l.t); }
  }

  lemma OthersMove(ops: seq<Op>, s: State, l: Label)
    requires Inv(ops, s) && Enabled(ops, s, l) && s.status != Normal && !Winner(s, l.t)
    ensures |Apply(ops, s, l).callers| == |Apply(ops, s, l).workers| && WinnerOk(Apply(ops, s, l))
  {
    var s' := Apply(ops, s, l);
    assert CallOk(ops, s, l.t);
    assert !Winner(s', l.t);
    assert forall t: nat :: t < |s'.callers| ==> (Winner(s', t) <==> Winner(s, t)) && (Began(s', t) <==> Began(s, t));
    assert s'.status == s.status && s'.implStarts == s.implStarts;
    if s.status == Disposing {
      var w: nat :| w < |s.callers| && Winner(s, w) && s.implStarts == (if Began(s, w) then 1 else 0)
                    && forall t: nat :: t < |s.callers| && Winner(s, t) ==> t == w;
      assert Winner(s', w);
    }
  }

  lemma StepWinner(ops: seq<Op>, s: State, l: Label)
    requires Inv(ops, s) && Enabled(ops, s, l)
    ensures |Apply(ops, s, l).callers| == |Apply(ops, s, l).workers| && WinnerOk(Apply(ops, s, l))
  {
    assert CallOk(ops, s, l.t);
    if s.status == Normal { WinnerAppears(ops, s, l); }
    else if Winner(s, l.t) { WinnerMoves(ops, s, l); }
    else { OthersMove(ops, s, l); }
  }

  lemma {:induction false} RunInv(ops: seq<Op>, labels: seq<Label>)
    requires Exec(ops, labels).Some?
    ensures Inv(ops, Exec(ops, labels).value)
    decreases |labels|
  {
    if labels != [] {
      var n := |labels| - 1;
      RunInv(ops, labels[..n]);
      StepCalls(ops, Exec(ops, labels[..n]).value, labels[n]);
      StepWinner(ops, Exec(ops, labels[..n]).value, labels[n]);
    }
  }

  /** In every run dispose_impl starts at most once, no assert fires, and a dispose or
      async_dispose(true) that returned did so with the object disposed, so that a destructor
      running after it finds STATUS_DISPOSED; async_dispose(false) never waits. */
  lemma DisposeOnce(ops: seq<Op>, labels: seq<Label>, t: nat)
    requires Exec(ops, labels).Some? && t < |ops|
    ensures var s := Exec(ops, labels).value;
            && |s.callers| == |ops| && s.implStarts <= 1 && !s.broken
            && (s.callers[t] == Returned && (ops[t] == CallDispose || ops[t] == CallAsync(true)) ==>
                  s.status == Disposed && s.implStarts == 1)
            && (ops[t] == CallAsync(false) ==> s.callers[t] == Start || s.callers[t] == Returned)
  {
    RunInv(ops, labels);
    assert CallOk(ops, Exec(ops, labels).value, t);
  }

  /** The status only moves from NORMAL to DISPOSING to DISPOSED, one of them at a step. */
  lemma {:induction false} StatusMonotone(ops: seq<Op>, labels: seq<Label>, more: seq<Label>)
    requires Exec(ops, labels).Some? && Exec(ops, labels + more).Some?
    ensures var before, after := Exec(ops, labels).value, Exec(ops, labels + more).value;
            StatusRank(before.status) <= StatusRank(after.status) <= StatusRank(before.status) + |more|
    decreases |more|
  {
    if more == [] {
      assert labels + more == labels;
    } else {
      var prev := labels + more[..|more| - 1];
      assert (labels + more)[..|labels + more| - 1] == prev;
      StatusMonotone(ops, labels, more[..|more| - 1]);
      RunInv(ops, prev);
      var l := (labels + more)[|labels + more| - 1];
      assert CallOk(ops, Exec(ops, prev).value, l.t);
    }
  }

  // ----- progress -----

  function CallRank(c: Caller, w: Worker): nat {
    (match c case Start => 5 case InImpl => 2 case StoreDisposed => 1 case Join => 1 case Poll => 1 case Returned => 0)
    + (match w case NotCreated => 0 case Created => 3 case WorkerInImpl => 2 case WorkerStore => 1 case Ended => 0)
  }

  function CallRanks(s: State): seq<nat>
    requires |s.callers| == |s.workers|
  {
    seq(|s.callers|, t requires 0 <= t < |s.callers| => CallRank(s.callers[t], s.workers[t]))
  }

  lemma OneRankFalls(ops: seq<Op>, s: State, l: Label)
    requires Inv(ops, s) && Enabled(ops, s, l)
    ensures var s' := Apply(ops, s, l);
            && |s'.callers| == |s'.workers| == |ops|
            && CallRank(s'.callers[l.t], s'.workers[l.t]) < CallRank(s.callers[l.t], s.workers[l.t])
            && s'.callers == s.callers[l.t := s'.callers[l.t]] && s'.workers == s.workers[l.t := s'.workers[l.t]]
  {
    assert CallOk(ops, s, l.t);
  }

  lemma StepRank(ops: seq<Op>, s: State, l: Label)
    requires Inv(ops, s) && Enabled(ops, s, l)
    ensures |Apply(ops, s, l).callers| == |Apply(ops, s, l).workers|
    ensures Sum(CallRanks(Apply(ops, s, l))) < Sum(CallRanks(s))
  {
    var s' := Apply(ops, s, l);
    var t := l.t;
    OneRankFalls(ops, s, l);
    SumUpdate(CallRanks(s), t, CallRanks(s')[t]);
    assert CallRanks(s') == CallRanks(s)[t := CallRanks(s')[t]];
  }

  /** Five steps per call bound every run. */
  lemma {:induction false} RunsEnd(ops: seq<Op>, labels: seq<Label>)
    requires Exec(ops, labels).Some?
    ensures |Exec(ops, labels).value.callers| == |Exec(ops, labels).value.workers|
    ensures |labels| + Sum(CallRanks(Exec(ops, labels).value)) <= 5 * |ops|
    decreases |labels|
  {
    if labels == [] {
      SumConstant(CallRanks(Init(ops)), 5);
    } else {
      var n := |labels| - 1;
      RunsEnd(ops, labels[..n]);
      RunInv(ops, labels[..n]);
      StepRank(ops, Exec(ops, labels[..n]).value, labels[n]);
    }
  }

  /** A run that cannot go on has every call returned, every created thread ended, and, if
      anyone called at all, the object disposed by exactly one dispose_impl. */
  lemma DisposeCompletes(ops: seq<Op>, labels: seq<Label>)
    requires Exec(ops, labels).Some?
    requires forall l :: !Enabled(ops, Exec(ops, labels).value, l)
    ensures var s := Exec(ops, labels).value;
            && |s.callers| == |s.workers| == |ops|
            && (forall t :: 0 <= t < |ops| ==>
                  s.callers[t] == Returned && (s.workers[t] == NotCreated || s.workers[t] == Ended))
            && (ops != [] ==> s.status == Disposed && s.implStarts == 1)
  {
    RunInv(ops, labels);
    var s := Exec(ops, labels).value;
    forall t: nat | t < |ops| ensures !Winner(s, t) && s.callers[t] != Start {
      assert !Enabled(ops, s, WorkerStep(t)) && !Enabled(ops, s, CallerStep(t));
    }
    assert s.status != Disposing;
    forall t: nat | t < |ops| ensures s.callers[t] == Returned {
      assert CallOk(ops, s, t);
      assert !Enabled(ops, s, CallerStep(t));
    }
    Called(ops, labels);
    assert ops != [] ==> s.callers[0] != Start;
  }

  /** Once a call is past its exchange the status has left NORMAL. */
  lemma {:induction false} Called(ops: seq<Op>, labels: seq<Label>)
    requires Exec(ops, labels).Some?
    ensures |Exec(ops, labels).value.callers| == |ops|
    ensures var s := Exec(ops, labels).value; s.status == Normal ==> forall t :: 0 <= t < |ops| ==> s.callers[t] == Start
    decreases |labels|
  {
    if labels != [] {
      var n := |labels| - 1;
      Called(ops, labels[..n]);
      RunInv(ops, labels[..n]);
      var s := Exec(ops, labels[..n]).value;
      assert CallOk(ops, s, labels[n].t);
      assert labels[n].WorkerStep? ==> Winner(s, labels[n].t);
    }
  }

  // ----- the calls as written -----

  /** The atomic status seen by one calling thread: before each of its operations other
      threads may advance it, unless this thread won the exchange. `patience` bounds how many
      polls find the winner still at work (its dispose_impl ends), `mine` and `implRuns` say
      who won and how often this thread, or the thread it created, ran dispose_impl. */
  class Shared {
    var status: Status
    var mine: bool
    var implRuns: nat
    var patience: nat

    constructor ()
      ensures status == Normal && !mine && implRuns == 0
    {
      status, mine, implRuns := Normal, false, 0;
      patience := *;
    }

    ghost predicate Valid()
      reads this
    {
      implRuns == if mine && status == Disposed then 1 else 0
    }

    method Others()
      requires Valid()
      modifies this`status, this`patience
      ensures Valid() && StatusRank(old(status)) <= StatusRank(status)
      ensures mine ==> status == old(status)
      ensures status == Disposing && old(status) == Disposing ==> patience < old(patience) || mine
    {
      var begin, finish: bool := *, *;
      if !mine && status == Normal && begin {
        status, patience := Disposing, *;
      } else if !mine && status == Disposing {
        if patience == 0 || finish { status := Disposed; } else { patience := patience - 1; }
      }
    }

    /** compare_exchange_strong(NORMAL, DISPOSING); `seen` is what it found. */
    method Exchange() returns (won: bool, seen: Status)
      requires Valid() && !mine
      modifies this
      ensures Valid() && won == mine && (won <==> seen == Normal) && StatusRank(old(status)) <= StatusRank(seen)
      ensures status == if won then Disposing else seen
    {
      Others();
      seen := status;
      won := status == Normal;
      if won {
        status, mine := Disposing, true;
      }
    }

    /** dispose_impl, then the store of STATUS_DISPOSED. */
    method RunImpl()
      requires Valid() && mine && status == Disposing
      modifies this
      ensures Valid() && mine && status == Disposed
    {
      implRuns := implRuns + 1;
      status := Disposed;
    }

    method WaitForDisposeDone()
      requires Valid() && !mine && status != Normal
      modifies this`status, this`patience
      ensures Valid() && !mine && status == Disposed
    {
      Others();
      while status == Disposing
        invariant Valid() && !mine && status != Normal
        decreases if status == Disposing then patience + 1 else 0
      {
        Others();
      }
    }

    /** Returns only with the object disposed; this thread ran dispose_impl exactly when it
        won the exchange. */
    method Dispose()
      requires Valid() && !mine
      modifies this
      ensures Valid() && status == Disposed && implRuns == if mine then 1 else 0
    {
      var won, seen := Exchange();
      if won {
        RunImpl();
        return;
      }
      if seen == Disposed {
        return;
      }
      WaitForDisposeDone();
    }

    /** With `waitForDone` like Dispose; otherwise it may return early, but never before
        somebody's exchange. `joined` says whether the created thread has ended. */
    method AsyncDispose(waitForDone: bool) returns (joined: bool)
      requires Valid() && !mine
      modifies this
      ensures Valid() && status != Normal
      ensures waitForDone ==> status == Disposed && implRuns == if mine then 1 else 0
      ensures mine ==> status == if joined then Disposed else Disposing
    {
      joined := false;
      var won, seen := Exchange();
      if won {
        var fast: bool := *;
        if waitForDone || fast {
          RunImpl();
          joined := true;
        }
        return;
      }
      if seen == Disposed {
        return;
      }
      if waitForDone {
        WaitForDisposeDone();
      }
    }
  }
}
