/** `rundown_protection` (src/infra/rundown_protection.h:11-60) and the two places that use
    it: a server channel thread adding its handle to `channel_threads`
    (src/server.cpp:666-675, 743-801) and the teardown that joins them
    (src/server.cpp:343-361). Any number of threads; one step is one mutex operation, one
    access to the flag, or one use of the handle list. */
module Rundown {
  import opened Basics

  /** What a thread is: it acquires shared, or unique to register its handle, or for rundown. */
  datatype Kind = Reader | Acceptor | Disposer

  /** From AtFlag to HasBoth a thread holds the serial mutex, from HasBoth to Leaving the
      shared one. `Joining(k)` is about to join the k-th handle of the list. */
  datatype Pc =
    | Start | WantSerial | AtFlag | GiveBack | WantMutex | HasBoth | Inside | Joining(k: nat) | Leaving
    | InChannel | Sweeping | Ended(swept: bool)

  /** `joined` and `detached` count what happened to each thread's handle; `broken` records a
      join of a handle that is not joinable. */
  datatype State = State(
    serial: Option<nat>, exclusive: Option<nat>, readers: set<nat>, flag: bool, pcs: seq<Pc>,
    list: seq<nat>, joined: seq<nat>, detached: seq<nat>, broken: bool)

  /** `Fail` is any error before the channel thread asks for the lock. */
  datatype Label = Step(t: nat) | Fail(t: nat)

  function Init(kinds: seq<Kind>): State {
    State(None, None, {}, false, seq(|kinds|, _ => Start), [], seq(|kinds|, _ => 0), seq(|kinds|, _ => 0), false)
  }

  predicate Shape(kinds: seq<Kind>, s: State) { |s.pcs| == |s.joined| == |s.detached| == |kinds| }

  predicate Enabled(kinds: seq<Kind>, s: State, l: Label) {
    && Shape(kinds, s) && l.t < |kinds|
    && match l
       case Fail(t) => kinds[t] == Acceptor && s.pcs[t] == Start
       case Step(t) =>
         match s.pcs[t]
         case WantSerial => s.serial == None
         case WantMutex => s.exclusive == None && (kinds[t] == Reader || s.readers == {})
         case Joining(k) => k < |s.list| ==> s.list[k] < |s.pcs| && s.pcs[s.list[k]].Ended?
         case Ended(_) => false
         case _ => true
  }

  function Go(s: State, t: nat, pc: Pc): State
    requires t < |s.pcs|
  {
    s.(pcs := s.pcs[t := pc])
  }

  /** The flag is read, or raised by the rundown caller. */
  function TestFlag(kind: Kind, s: State, t: nat): State
    requires t < |s.pcs|
  {
    if kind == Disposer then Go(s, t, WantMutex).(flag := true)
    else Go(s, t, if s.flag then GiveBack else WantMutex)
  }

  function TakeMutex(kind: Kind, s: State, t: nat): State
    requires t < |s.pcs|
  {
    if kind == Reader then Go(s, t, HasBoth).(readers := s.readers + {t})
    else Go(s, t, HasBoth).(exclusive := Some(t))
  }

  function UseMutex(kind: Kind, s: State, t: nat): State
    requires t < |s.pcs|
  {
    match kind
    case Reader => Go(s, t, Leaving)
    case Acceptor => Go(s, t, Leaving).(list := s.list + [t])
    case Disposer => Go(s, t, Joining(0))
  }

  /** One round of the loop over channel_threads, or the clear() after it. */
  function JoinNext(s: State, t: nat): State
    requires t < |s.pcs| == |s.joined| == |s.detached| && s.pcs[t].Joining?
  {
    var k := s.pcs[t].k;
    if k < |s.list| then
      var u := s.list[k];
      if u < |s.pcs| then
        Go(s, t, Joining(k + 1)).(joined := s.joined[u := s.joined[u] + 1],
                                  broken := s.broken || s.joined[u] + s.detached[u] != 0)
      else s
    else Go(s, t, Leaving).(list := [])
  }

  function LeaveMutex(kind: Kind, s: State, t: nat): State
    requires t < |s.pcs|
  {
    match kind
    case Reader => Go(s, t, Ended(false)).(readers := s.readers - {t})
    case Acceptor => Go(s, t, InChannel).(exclusive := None)
    case Disposer => Go(s, t, Ended(false)).(exclusive := None)
  }

  /** The steps on the serial mutex alone. */
  function Serial(kind: Kind, s: State, t: nat): State
    requires t < |s.pcs|
  {
    match s.pcs[t]
    case WantSerial => Go(s, t, AtFlag).(serial := Some(t))
    case GiveBack => Go(s, t, if kind == Acceptor then Sweeping else Ended(false)).(serial := None)
    case _ => Go(s, t, Inside).(serial := None)
  }

  /** The steps that touch no lock. */
  function Outside(s: State, t: nat): State
    requires t < |s.pcs| == |s.detached|
  {
    match s.pcs[t]
    case Start => Go(s, t, WantSerial)
    case InChannel => Go(s, t, Ended(false))
    case _ => Go(s, t, Ended(true)).(detached := s.detached[t := s.detached[t] + 1])
  }

  function Apply(kinds: seq<Kind>, s: State, l: Label): State
    requires Enabled(kinds, s, l)
  {
    var t := l.t;
    if l.Fail? then Go(s, t, Sweeping)
    else
      match s.pcs[t]
      case AtFlag => TestFlag(kinds[t], s, t)
      case WantMutex => TakeMutex(kinds[t], s, t)
      case Inside => UseMutex(kinds[t], s, t)
      case Joining(_) => JoinNext(s, t)
      case Leaving => LeaveMutex(kinds[t], s, t)
      case Ended(_) => s
      case Start => Outside(s, t)
      case InChannel => Outside(s, t)
      case Sweeping => Outside(s, t)
      case _ => Serial(kinds[t], s, t)
  }

  function Exec(kinds: seq<Kind>, labels: seq<Label>): Option<State>
    decreases |labels|
  {
    if labels == [] then Some(Init(kinds))
    else
      match Exec(kinds, labels[..|labels| - 1])
      case None => None
      case Some(s) =>
        var l := labels[|labels| - 1];
        if Enabled(kinds, s, l) then Some(Apply(kinds, s, l)) else None
  }

  // ----- the invariant: locks -----

  predicate HoldsSerial(pc: Pc) { pc == AtFlag || pc == GiveBack || pc == WantMutex || pc == HasBoth }

  predicate HoldsMutex(pc: Pc) { pc == HasBoth || pc == Inside || pc.Joining? || pc == Leaving }

  predicate BeforeFlag(pc: Pc) { pc == Start || pc == WantSerial || pc == AtFlag }

  predicate LocksOk(kind: Kind, s: State, t: nat)
    requires t < |s.pcs|
  {
    var pc := s.pcs[t];
    && (HoldsSerial(pc) <==> s.serial == Some(t))
    && (HoldsMutex(pc) && kind == Reader <==> t in s.readers)
    && (HoldsMutex(pc) && kind != Reader <==> s.exclusive == Some(t))
    && (kind == Disposer && !BeforeFlag(pc) ==> s.flag)
    && (pc.Joining? ==> kind == Disposer && pc.k <= |s.list|)
    && (pc == InChannel || pc == Sweeping || pc == Ended(true) ==> kind == Acceptor)
    && (kind == Disposer ==> pc != GiveBack)
  }

  ghost predicate LockInv(kinds: seq<Kind>, s: State) {
    && Shape(kinds, s)
    && (forall t :: 0 <= t < |kinds| ==> LocksOk(kinds[t], s, t))
    && (s.serial.Some? ==> s.serial.value < |kinds|)
    && (s.exclusive.Some? ==> s.exclusive.value < |kinds| && s.readers == {})
    && (forall r :: r in s.readers ==> r < |kinds|)
  }

  // ----- the invariant: handles -----

  /** The thread put its handle into the list. */
  predicate Pushed(kind: Kind, pc: Pc) {
    kind == Acceptor && (pc == Leaving || pc == InChannel || pc == Ended(false))
  }

  /** How many handles of the list are joined already. */
  function JoinedSoFar(s: State): nat {
    if s.exclusive.Some? && s.exclusive.value < |s.pcs| && s.pcs[s.exclusive.value].Joining?
    then s.pcs[s.exclusive.value].k else 0
  }

  predicate Distinct(list: seq<nat>) { forall i, j :: 0 <= i < j < |list| ==> list[i] != list[j] }

  predicate HandleOk(kind: Kind, s: State, t: nat)
    requires t < |s.pcs| == |s.joined| == |s.detached|
  {
    && s.joined[t] <= 1
    && s.detached[t] == (if s.pcs[t] == Ended(true) then 1 else 0)
    && (s.joined[t] == 1 ==> Pushed(kind, s.pcs[t]))
    && (Pushed(kind, s.pcs[t]) && t !in s.list ==> s.joined[t] == 1)
  }

  predicate EntryOk(kinds: seq<Kind>, s: State, i: nat)
    requires i < |s.list| && Shape(kinds, s)
  {
    var t := s.list[i];
    t < |kinds| && Pushed(kinds[t], s.pcs[t]) && s.joined[t] == if i < JoinedSoFar(s) then 1 else 0
  }

  ghost predicate HandleInv(kinds: seq<Kind>, s: State) {
    && Shape(kinds, s) && !s.broken && Distinct(s.list)
    && (forall t :: 0 <= t < |kinds| ==> HandleOk(kinds[t], s, t))
    && (forall i :: 0 <= i < |s.list| ==> EntryOk(kinds, s, i))
  }

  ghost predicate Inv(kinds: seq<Kind>, s: State) { LockInv(kinds, s) && HandleInv(kinds, s) }

  /** What a step of thread t shows the other threads. */
  predicate Seen(s: State, s': State, t: nat)
    requires t < |s.pcs|
  {
    && |s'.pcs| == |s.pcs| && s'.pcs == s.pcs[t := s'.pcs[t]] && (s.flag ==> s'.flag)
    && (s'.serial == s.serial || (s.serial == None && s'.serial == Some(t)) || (s.serial == Some(t) && s'.serial == None))
    && (s'.exclusive == s.exclusive || (s.exclusive == Some(t) && s'.exclusive == None)
        || (s.exclusive == None && s.readers == {} && s'.exclusive == Some(t)))
    && (s'.readers == s.readers || s'.readers == s.readers - {t} || (s.exclusive == None && s'.readers == s.readers + {t}))
    && (s'.exclusive == s.exclusive || s'.readers == s.readers)
    && (s'.list == s.list || s.exclusive == Some(t))
  }

  lemma FlagStep(kind: Kind, s: State, t: nat)
    requires t < |s.pcs| && LocksOk(kind, s, t) && s.pcs[t] == AtFlag
    ensures Seen(s, TestFlag(kind, s, t), t) && LocksOk(kind, TestFlag(kind, s, t), t)
  { }

  lemma TakeStep(kind: Kind, s: State, t: nat)
    requires t < |s.pcs| && LocksOk(kind, s, t) && s.pcs[t] == WantMutex
    requires s.exclusive == None && (kind == Reader || s.readers == {})
    ensures Seen(s, TakeMutex(kind, s, t), t) && LocksOk(kind, TakeMutex(kind, s, t), t)
  { }

  lemma UseStep(kind: Kind, s: State, t: nat)
    requires t < |s.pcs| && LocksOk(kind, s, t) && s.pcs[t] == Inside
    ensures Seen(s, UseMutex(kind, s, t), t) && LocksOk(kind, UseMutex(kind, s, t), t)
  { }

  lemma JoinStep(kind: Kind, s: State, t: nat)
    requires t < |s.pcs| == |s.joined| == |s.detached| && LocksOk(kind, s, t) && s.pcs[t].Joining?
    requires s.pcs[t].k < |s.list| ==> s.list[s.pcs[t].k] < |s.pcs|
    ensures Seen(s, JoinNext(s, t), t) && LocksOk(kind, JoinNext(s, t), t)
  { }

  lemma LeaveStep(kind: Kind, s: State, t: nat)
    requires t < |s.pcs| && LocksOk(kind, s, t) && s.pcs[t] == Leaving
    ensures Seen(s, LeaveMutex(kind, s, t), t) && LocksOk(kind, LeaveMutex(kind, s, t), t)
  { }

  lemma SerialStep(kind: Kind, s: State, t: nat)
    requires t < |s.pcs| && LocksOk(kind, s, t)
    requires (s.pcs[t] == WantSerial && s.serial == None) || s.pcs[t] == GiveBack || s.pcs[t] == HasBoth
    ensures Seen(s, Serial(kind, s, t), t) && LocksOk(kind, Serial(kind, s, t), t)
  { }

  lemma OutsideStep(kind: Kind, s: State, t: nat)
    requires t < |s.pcs| == |s.detached| && LocksOk(kind, s, t)
    requires s.pcs[t] == Start || s.pcs[t] == InChannel || s.pcs[t] == Sweeping
    ensures Seen(s, Outside(s, t), t) && LocksOk(kind, Outside(s, t), t)
  { }

  lemma OwnLocks(kinds: seq<Kind>, s: State, l: Label)
    requires Shape(kinds, s) && l.t < |kinds| && LocksOk(kinds[l.t], s, l.t) && Enabled(kinds, s, l)
    ensures Shape(kinds, Apply(kinds, s, l))
    ensures Seen(s, Apply(kinds, s, l), l.t) && LocksOk(kinds[l.t], Apply(kinds, s, l), l.t)
  {
    var t, kind := l.t, kinds[l.t];
    if l.Step? {
      match s.pcs[t]
      case AtFlag => FlagStep(kind, s, t);
      case WantMutex => TakeStep(kind, s, t);
      case Inside => UseStep(kind, s, t);
      case Joining(_) => JoinStep(kind, s, t);
      case Leaving => LeaveStep(kind, s, t);
      case Ended(_) =>
      case Start => OutsideStep(kind, s, t);
      case InChannel => OutsideStep(kind, s, t);
      case Sweeping => OutsideStep(kind, s, t);
      case _ => SerialStep(kind, s, t);
    }
  }

  lemma OtherLocks(kind: Kind, s: State, s': State, t: nat, u: nat)
    requires t < |s.pcs| && u < |s.pcs| && u != t && Seen(s, s', t) && LocksOk(kind, s, u)
    ensures LocksOk(kind, s', u)
  { }

  lemma LockStep(kinds: seq<Kind>, s: State, l: Label)
    requires LockInv(kinds, s) && Enabled(kinds, s, l)
    ensures LockInv(kinds, Apply(kinds, s, l)) && Seen(s, Apply(kinds, s, l), l.t)
  {
    var s' := Apply(kinds, s, l);
    OwnLocks(kinds, s, l);
    forall u | 0 <= u < |kinds| ensures LocksOk(kinds[u], s', u) {
      if u != l.t { OtherLocks(kinds[u], s, s', l.t, u); }
    }
  }

  /** A step that leaves the list and the joins alone and pushes nothing. */
  predicate QuietMove(kind: Kind, s: State, s': State, t: nat)
    requires t < |s.pcs| == |s.joined| == |s.detached|
  {
    && |s'.pcs| == |s'.joined| == |s'.detached| == |s.pcs|
    && s'.list == s.list && s'.joined == s.joined && s'.broken == s.broken
    && s'.pcs == s.pcs[t := s'.pcs[t]] && JoinedSoFar(s') == JoinedSoFar(s)
    && (Pushed(kind, s'.pcs[t]) <==> Pushed(kind, s.pcs[t]))
    && s'.detached == s.detached[t := s'.detached[t]]
    && s'.detached[t] == s.detached[t] + (if s.pcs[t] == Sweeping then 1 else 0)
    && (s'.pcs[t] == Ended(true) <==> s.pcs[t] == Sweeping || s.pcs[t] == Ended(true))
  }

  /** What the handle proofs need to know about the mutex. */
  predicate MutexKnown(kind: Kind, s: State, t: nat) {
    && t < |s.pcs| == |s.joined| == |s.detached| && LocksOk(kind, s, t)
    && (s.exclusive.Some? ==> s.exclusive.value < |s.pcs|)
  }

  lemma QuietLocks(kind: Kind, s: State, t: nat)
    requires MutexKnown(kind, s, t)
    ensures s.pcs[t] == AtFlag ==> QuietMove(kind, s, TestFlag(kind, s, t), t)
    ensures s.pcs[t] == Inside && kind != Acceptor ==> QuietMove(kind, s, UseMutex(kind, s, t), t)
    ensures s.pcs[t] == Leaving ==> QuietMove(kind, s, LeaveMutex(kind, s, t), t)
  { }

  lemma QuietTake(kind: Kind, s: State, t: nat)
    requires MutexKnown(kind, s, t) && s.pcs[t] == WantMutex && s.exclusive == None
    ensures QuietMove(kind, s, TakeMutex(kind, s, t), t)
  { }

  lemma QuietSerial(kind: Kind, s: State, t: nat)
    requires MutexKnown(kind, s, t)
    ensures s.pcs[t] == WantSerial || s.pcs[t] == GiveBack || s.pcs[t] == HasBoth ==> QuietMove(kind, s, Serial(kind, s, t), t)
  { }

  lemma QuietOutside(kind: Kind, s: State, t: nat)
    requires MutexKnown(kind, s, t)
    ensures s.pcs[t] == Start || s.pcs[t] == InChannel || s.pcs[t] == Sweeping ==> QuietMove(kind, s, Outside(s, t), t)
    ensures s.pcs[t] == Start ==> QuietMove(kind, s, Go(s, t, Sweeping), t)
  { }

  lemma QuietStep(kinds: seq<Kind>, s: State, l: Label)
    requires Shape(kinds, s) && l.t < |kinds| && MutexKnown(kinds[l.t], s, l.t) && Enabled(kinds, s, l)
    requires l.Step? ==> !s.pcs[l.t].Joining? && !(s.pcs[l.t] == Inside && kinds[l.t] == Acceptor)
    ensures QuietMove(kinds[l.t], s, Apply(kinds, s, l), l.t)
  {
    var t, kind := l.t, kinds[l.t];
    QuietLocks(kind, s, t);
    QuietSerial(kind, s, t);
    QuietOutside(kind, s, t);
    if l.Step? && s.pcs[t] == WantMutex { QuietTake(kind, s, t); }
  }

  lemma QuietHandles(kinds: seq<Kind>, s: State, s': State, t: nat)
    requires HandleInv(kinds, s) && t < |kinds| && QuietMove(kinds[t], s, s', t)
    ensures HandleInv(kinds, s')
  {
    forall u | 0 <= u < |kinds| ensures HandleOk(kinds[u], s', u) { assert HandleOk(kinds[u], s, u); }
    forall i | 0 <= i < |s'.list| ensures EntryOk(kinds, s', i) { assert EntryOk(kinds, s, i); }
  }

  lemma PushHandles(kinds: seq<Kind>, s: State, t: nat)
    requires HandleInv(kinds, s) && t < |kinds| && LocksOk(Acceptor, s, t) && kinds[t] == Acceptor && s.pcs[t] == Inside
    ensures HandleInv(kinds, UseMutex(Acceptor, s, t))
  {
    var s' := UseMutex(Acceptor, s, t);
    assert HandleOk(kinds[t], s, t);
    forall i | 0 <= i < |s.list| ensures s.list[i] != t { assert EntryOk(kinds, s, i); }
    forall u | 0 <= u < |kinds| ensures HandleOk(kinds[u], s', u) { assert HandleOk(kinds[u], s, u); }
    forall i | 0 <= i < |s'.list| ensures EntryOk(kinds, s', i) {
      if i < |s.list| { assert EntryOk(kinds, s, i); }
    }
  }

  lemma JoinHandles(kinds: seq<Kind>, s: State, t: nat)
    requires HandleInv(kinds, s) && t < |kinds| && LocksOk(Disposer, s, t) && kinds[t] == Disposer
    requires s.pcs[t].Joining? && s.pcs[t].k < |s.list| && s.list[s.pcs[t].k] < |s.pcs|
    ensures HandleInv(kinds, JoinNext(s, t))
  {
    var s' := JoinNext(s, t);
    var k := s.pcs[t].k;
    assert EntryOk(kinds, s, k);
    assert HandleOk(kinds[s.list[k]], s, s.list[k]);
    forall u | 0 <= u < |kinds| ensures HandleOk(kinds[u], s', u) { assert HandleOk(kinds[u], s, u); }
    forall i | 0 <= i < |s'.list| ensures EntryOk(kinds, s', i) { assert EntryOk(kinds, s, i); }
  }

  lemma ClearHandles(kinds: seq<Kind>, s: State, t: nat)
    requires HandleInv(kinds, s) && t < |kinds| && LocksOk(Disposer, s, t) && kinds[t] == Disposer
    requires s.pcs[t].Joining? && s.pcs[t].k >= |s.list|
    ensures HandleInv(kinds, JoinNext(s, t))
  {
    var s' := JoinNext(s, t);
    forall u | 0 <= u < |kinds| ensures HandleOk(kinds[u], s', u) {
      assert HandleOk(kinds[u], s, u);
      if u in s.list {
        var i :| 0 <= i < |s.list| && s.list[i] == u;
        assert EntryOk(kinds, s, i);
      }
    }
  }

  lemma HandleStep(kinds: seq<Kind>, s: State, l: Label)
    requires Inv(kinds, s) && Enabled(kinds, s, l)
    ensures HandleInv(kinds, Apply(kinds, s, l))
  {
    var t := l.t;
    assert LocksOk(kinds[t], s, t);
    if l.Step? && s.pcs[t].Joining? {
      if s.pcs[t].k < |s.list| { JoinHandles(kinds, s, t); } else { ClearHandles(kinds, s, t); }
    } else if l.Step? && s.pcs[t] == Inside && kinds[t] == Acceptor {
      PushHandles(kinds, s, t);
    } else {
      QuietStep(kinds, s, l);
      QuietHandles(kinds, s, Apply(kinds, s, l), t);
    }
  }

  lemma {:induction false} RunInv(kinds: seq<Kind>, labels: seq<Label>)
    requires Exec(kinds, labels).Some?
    ensures Inv(kinds, Exec(kinds, labels).value)
    decreases |labels|
  {
    if labels != [] {
      var n := |labels| - 1;
      RunInv(kinds, labels[..n]);
      LockStep(kinds, Exec(kinds, labels[..n]).value, labels[n]);
      HandleStep(kinds, Exec(kinds, labels[..n]).value, labels[n]);
    }
  }

  // ----- the lock after the flag -----

  /** Asked for the lock only after the flag was up, or was refused. */
  predicate Refused(kinds: seq<Kind>, s: State, t: nat)
    requires t < |kinds|
  {
    && t < |s.pcs| && s.flag && !Pushed(kinds[t], s.pcs[t])
    && (BeforeFlag(s.pcs[t]) || s.pcs[t] == GiveBack || s.pcs[t] == Sweeping || s.pcs[t].Ended?)
  }

  lemma RefusedStays(kinds: seq<Kind>, s: State, l: Label)
    requires Shape(kinds, s) && Enabled(kinds, s, l) && kinds[l.t] != Disposer && Refused(kinds, s, l.t)
    ensures Refused(kinds, Apply(kinds, s, l), l.t)
  { }

  lemma RefusedStep(kinds: seq<Kind>, s: State, l: Label, t: nat)
    requires LockInv(kinds, s) && Enabled(kinds, s, l) && t < |kinds| && kinds[t] != Disposer && Refused(kinds, s, t)
    ensures Refused(kinds, Apply(kinds, s, l), t)
  {
    LockStep(kinds, s, l);
    if l.t == t { RefusedStays(kinds, s, l); }
  }

  /** Once acquire_rundown has raised the flag, no reader or channel thread that had not read
      it before ever owns the lock, or adds a handle, in any continuation of the run. */
  lemma {:induction false} NoLockAfterFlag(kinds: seq<Kind>, labels: seq<Label>, more: seq<Label>, t: nat)
    requires Exec(kinds, labels).Some? && Exec(kinds, labels + more).Some? && t < |kinds| && kinds[t] != Disposer
    requires var s := Exec(kinds, labels).value; s.flag && t < |s.pcs| && BeforeFlag(s.pcs[t])
    ensures var s' := Exec(kinds, labels + more).value;
            Refused(kinds, s', t) && t !in s'.readers && s'.exclusive != Some(t)
    decreases |more|
  {
    if more == [] {
      assert labels + more == labels;
    } else {
      var prev := labels + more[..|more| - 1];
      assert (labels + more)[..|labels + more| - 1] == prev;
      NoLockAfterFlag(kinds, labels, more[..|more| - 1], t);
      RunInv(kinds, prev);
      RefusedStep(kinds, Exec(kinds, prev).value, (labels + more)[|labels + more| - 1], t);
    }
    RunInv(kinds, labels + more);
    assert LocksOk(kinds[t], Exec(kinds, labels + more).value, t);
  }

  /** While the teardown holds the lock, nobody else changes the list. */
  lemma ListFrozen(kinds: seq<Kind>, s: State, l: Label, d: nat)
    requires Inv(kinds, s) && Enabled(kinds, s, l) && d < |kinds| && s.exclusive == Some(d) && l.t != d
    ensures Apply(kinds, s, l).list == s.list && Apply(kinds, s, l).exclusive == Some(d)
  {
    LockStep(kinds, s, l);
  }

  // ----- the list after the teardown -----

  /** Once the flag is up nobody new gets as far as the mutex; once a teardown has had the
      mutex nobody else has it; once its list is cleared it stays empty. */
  predicate HadMutex(pc: Pc) { HoldsMutex(pc) || pc.Ended? }

  predicate AfterOk(kinds: seq<Kind>, s: State, d: nat, t: nat)
    requires Shape(kinds, s) && d < |kinds| && t < |kinds|
  {
    && (kinds[t] != Disposer && s.flag ==> s.pcs[t] != WantMutex && s.pcs[t] != HasBoth)
    && (kinds[d] == Disposer && kinds[t] != Disposer && HadMutex(s.pcs[d]) ==> !HoldsMutex(s.pcs[t]))
    && (kinds[d] == Disposer && (s.pcs[d] == Leaving || s.pcs[d].Ended?) ==> s.list == [])
  }

  ghost predicate AfterInv(kinds: seq<Kind>, s: State)
    requires Shape(kinds, s)
  {
    forall d, t :: 0 <= d < |kinds| && 0 <= t < |kinds| ==> AfterOk(kinds, s, d, t)
  }

  /** How a step moves its own thread towards the mutex, and what it does to the list. */
  predicate Path(kind: Kind, s: State, s': State, t: nat)
    requires t < |s.pcs| == |s'.pcs|
  {
    var pc, pc' := s.pcs[t], s'.pcs[t];
    && (kind != Disposer && pc' == WantMutex ==> !s'.flag)
    && (kind != Disposer && pc' == HasBoth ==> pc == WantMutex && s'.flag == s.flag)
    && (s'.flag && !s.flag ==> s.serial == Some(t) && kind == Disposer)
    && (HoldsMutex(pc') ==> HoldsMutex(pc) || pc == WantMutex)
    && (kind == Disposer && HadMutex(pc') ==> HadMutex(pc) || (s.exclusive == None && s.readers == {}))
    && (s'.list == s.list || s'.list == [] || (kind == Acceptor && HoldsMutex(pc)))
    && (kind == Disposer && (pc' == Leaving || pc'.Ended?) ==> s'.list == [] || pc == Leaving || pc.Ended?)
  }

  lemma PathLocks(kind: Kind, s: State, t: nat)
    requires t < |s.pcs| && LocksOk(kind, s, t)
    ensures s.pcs[t] == AtFlag ==> Path(kind, s, TestFlag(kind, s, t), t)
    ensures s.pcs[t] == Inside ==> Path(kind, s, UseMutex(kind, s, t), t)
    ensures s.pcs[t] == Leaving ==> Path(kind, s, LeaveMutex(kind, s, t), t)
  { }

  lemma PathMutex(kind: Kind, s: State, t: nat)
    requires t < |s.pcs| == |s.joined| == |s.detached| && LocksOk(kind, s, t)
    ensures s.pcs[t] == WantMutex && s.exclusive == None && (kind == Reader || s.readers == {})
            ==> Path(kind, s, TakeMutex(kind, s, t), t)
    ensures s.pcs[t].Joining? ==> Path(kind, s, JoinNext(s, t), t)
  { }

  lemma PathSerial(kind: Kind, s: State, t: nat)
    requires t < |s.pcs| && LocksOk(kind, s, t)
    ensures s.pcs[t] == WantSerial || s.pcs[t] == GiveBack || s.pcs[t] == HasBoth ==> Path(kind, s, Serial(kind, s, t), t)
  { }

  lemma PathOutside(kind: Kind, s: State, t: nat)
    requires t < |s.pcs| == |s.detached| && LocksOk(kind, s, t)
    ensures s.pcs[t] == Start || s.pcs[t] == InChannel || s.pcs[t] == Sweeping ==> Path(kind, s, Outside(s, t), t)
    ensures s.pcs[t] == Start ==> kind == Acceptor ==> Path(kind, s, Go(s, t, Sweeping), t)
  { }

  lemma OwnPath(kinds: seq<Kind>, s: State, l: Label)
    requires Shape(kinds, s) && l.t < |kinds| && LocksOk(kinds[l.t], s, l.t) && Enabled(kinds, s, l)
    ensures Shape(kinds, Apply(kinds, s, l)) && Path(kinds[l.t], s, Apply(kinds, s, l), l.t)
  {
    var t, kind := l.t, kinds[l.t];
    PathLocks(kind, s, t);
    PathMutex(kind, s, t);
    PathSerial(kind, s, t);
    PathOutside(kind, s, t);
  }

  lemma AfterPair(kinds: seq<Kind>, s: State, s': State, m: nat, d: nat, t: nat)
    requires LockInv(kinds, s) && LockInv(kinds, s') && AfterInv(kinds, s) && m < |kinds| && d < |kinds| && t < |kinds|
    requires Seen(s, s', m) && Path(kinds[m], s, s', m)
    ensures AfterOk(kinds, s', d, t)
  {
    assert AfterOk(kinds, s, d, t) && AfterOk(kinds, s, d, m);
    assert LocksOk(kinds[d], s, d) && LocksOk(kinds[t], s, t) && LocksOk(kinds[m], s, m);
    assert LocksOk(kinds[t], s', t);
  }

  lemma AfterStep(kinds: seq<Kind>, s: State, l: Label)
    requires Inv(kinds, s) && AfterInv(kinds, s) && Enabled(kinds, s, l)
    ensures Shape(kinds, Apply(kinds, s, l)) && AfterInv(kinds, Apply(kinds, s, l))
  {
    var s' := Apply(kinds, s, l);
    LockStep(kinds, s, l);
    assert LocksOk(kinds[l.t], s, l.t);
    OwnPath(kinds, s, l);
    forall d, t | 0 <= d < |kinds| && 0 <= t < |kinds| ensures AfterOk(kinds, s', d, t) {
      AfterPair(kinds, s, s', l.t, d, t);
    }
  }

  lemma {:induction false} RunAfter(kinds: seq<Kind>, labels: seq<Label>)
    requires Exec(kinds, labels).Some?
    ensures Inv(kinds, Exec(kinds, labels).value) && AfterInv(kinds, Exec(kinds, labels).value)
    decreases |labels|
  {
    RunInv(kinds, labels);
    if labels != [] {
      var n := |labels| - 1;
      RunAfter(kinds, labels[..n]);
      AfterStep(kinds, Exec(kinds, labels[..n]).value, labels[n]);
    }
  }

  /** Neither joined nor detached yet. */
  predicate Joinable(s: State, u: nat) { u < |s.joined| == |s.detached| && s.joined[u] + s.detached[u] == 0 }

  /** Every handle is joined or detached at most once and never both, a join always meets a
      joinable handle, and once any teardown has returned the list is empty and every handle
      that was ever put into it is joined. */
  lemma HandlesSafe(kinds: seq<Kind>, labels: seq<Label>, t: nat)
    requires Exec(kinds, labels).Some? && t < |kinds|
    ensures var s := Exec(kinds, labels).value;
            && Shape(kinds, s) && !s.broken && s.joined[t] + s.detached[t] <= 1
            && (forall d :: 0 <= d < |kinds| && s.pcs[d].Joining? && s.pcs[d].k < |s.list| ==>
                  Joinable(s, s.list[s.pcs[d].k]))
            && (forall d :: 0 <= d < |kinds| && kinds[d] == Disposer && s.pcs[d].Ended? ==>
                  s.list == [] && (s.joined[t] == 1 <==> Pushed(kinds[t], s.pcs[t])))
  {
    RunAfter(kinds, labels);
    var s := Exec(kinds, labels).value;
    assert HandleOk(kinds[t], s, t);
    RunInv(kinds, labels);
    forall d | 0 <= d < |kinds| && s.pcs[d].Joining? && s.pcs[d].k < |s.list| ensures Joinable(s, s.list[s.pcs[d].k]) {
      assert LocksOk(kinds[d], s, d) && EntryOk(kinds, s, s.pcs[d].k);
      assert HandleOk(kinds[s.list[s.pcs[d].k]], s, s.list[s.pcs[d].k]);
    }
    forall d | 0 <= d < |kinds| && kinds[d] == Disposer && s.pcs[d].Ended?
      ensures s.list == [] && (s.joined[t] == 1 <==> Pushed(kinds[t], s.pcs[t]))
    {
      assert AfterOk(kinds, s, d, t);
    }
  }

  // ----- why a handle is detached -----

  predicate TurnedAway(pc: Pc) { pc == GiveBack || pc == Sweeping || pc == Ended(true) }

  /** Some teardown has raised the flag. */
  predicate TeardownBegan(kinds: seq<Kind>, s: State) {
    |s.pcs| == |kinds| && exists d :: 0 <= d < |kinds| && kinds[d] == Disposer && !BeforeFlag(s.pcs[d])
  }

  lemma FlagStepCause(kinds: seq<Kind>, s: State, l: Label)
    requires Enabled(kinds, s, l) && (s.flag ==> TeardownBegan(kinds, s))
    ensures Shape(kinds, Apply(kinds, s, l)) && (Apply(kinds, s, l).flag ==> TeardownBegan(kinds, Apply(kinds, s, l)))
  {
    var s' := Apply(kinds, s, l);
    if s.flag {
      var d :| 0 <= d < |kinds| && kinds[d] == Disposer && !BeforeFlag(s.pcs[d]);
      assert !BeforeFlag(s'.pcs[d]);
    } else if s'.flag {
      assert kinds[l.t] == Disposer && !BeforeFlag(s'.pcs[l.t]);
    }
  }

  lemma TurnStep(kinds: seq<Kind>, s: State, l: Label, t: nat)
    requires Enabled(kinds, s, l) && t < |kinds|
    ensures Shape(kinds, Apply(kinds, s, l)) && (s.flag ==> Apply(kinds, s, l).flag)
    ensures TurnedAway(Apply(kinds, s, l).pcs[t]) ==> TurnedAway(s.pcs[t]) || l == Fail(t) || s.flag
  { }

  /** In every run a handle is detached, or on its way there, only after a failure of its own
      thread or after a teardown raised the flag. */
  lemma {:induction false} DetachedForReason(kinds: seq<Kind>, labels: seq<Label>, t: nat)
    requires Exec(kinds, labels).Some? && t < |kinds|
    ensures var s := Exec(kinds, labels).value;
            && Shape(kinds, s) && (s.flag ==> TeardownBegan(kinds, s))
            && (TurnedAway(s.pcs[t]) ==> Fail(t) in labels || TeardownBegan(kinds, s))
    decreases |labels|
  {
    if labels != [] {
      var n := |labels| - 1;
      assert labels == labels[..n] + [labels[n]];
      DetachedForReason(kinds, labels[..n], t);
      var s := Exec(kinds, labels[..n]).value;
      FlagStepCause(kinds, s, labels[n]);
      TurnStep(kinds, s, labels[n], t);
      if TeardownBegan(kinds, s) { BeganStays(kinds, s, labels[n]); }
    }
  }

  lemma BeganStays(kinds: seq<Kind>, s: State, l: Label)
    requires Enabled(kinds, s, l) && TeardownBegan(kinds, s)
    ensures TeardownBegan(kinds, Apply(kinds, s, l))
  {
    var d :| 0 <= d < |kinds| && kinds[d] == Disposer && !BeforeFlag(s.pcs[d]);
    assert !BeforeFlag(Apply(kinds, s, l).pcs[d]);
  }

  // ----- progress -----

  /** A thread that owns the shared mutex can step, or the thread it joins can. */
  lemma OwnerSteps(kinds: seq<Kind>, s: State, o: nat) returns (l: Label)
    requires Inv(kinds, s) && o < |kinds| && HoldsMutex(s.pcs[o])
    ensures Enabled(kinds, s, l) && l.Step?
  {
    assert LocksOk(kinds[o], s, o);
    l := Step(o);
    if s.pcs[o].Joining? && s.pcs[o].k < |s.list| {
      var u := s.list[s.pcs[o].k];
      assert EntryOk(kinds, s, s.pcs[o].k);
      assert LocksOk(kinds[u], s, u);
      if !s.pcs[u].Ended? { l := Step(u); }
    }
  }

  /** A thread that owns the serial mutex can step, or whoever it waits for can. */
  lemma SerialSteps(kinds: seq<Kind>, s: State, o: nat) returns (l: Label)
    requires Inv(kinds, s) && o < |kinds| && HoldsSerial(s.pcs[o])
    ensures Enabled(kinds, s, l) && l.Step?
  {
    if s.pcs[o] != WantMutex || (s.exclusive == None && s.readers == {}) {
      l := Step(o);
    } else if s.exclusive.Some? {
      assert LocksOk(kinds[s.exclusive.value], s, s.exclusive.value);
      l := OwnerSteps(kinds, s, s.exclusive.value);
    } else {
      var r :| r in s.readers;
      assert LocksOk(kinds[r], s, r);
      l := OwnerSteps(kinds, s, r);
    }
  }

  /** No deadlock: as long as a thread has not ended, some thread can step. In particular an
      acquire_rundown that waits is waiting for threads that can still move. */
  lemma NotStuck(kinds: seq<Kind>, s: State, t: nat) returns (l: Label)
    requires Inv(kinds, s) && t < |kinds| && !s.pcs[t].Ended?
    ensures Enabled(kinds, s, l) && l.Step?
  {
    assert LocksOk(kinds[t], s, t);
    if HoldsSerial(s.pcs[t]) {
      l := SerialSteps(kinds, s, t);
    } else if HoldsMutex(s.pcs[t]) {
      l := OwnerSteps(kinds, s, t);
    } else if s.pcs[t] == WantSerial && s.serial.Some? {
      assert LocksOk(kinds[s.serial.value], s, s.serial.value);
      l := SerialSteps(kinds, s, s.serial.value);
    } else {
      l := Step(t);
    }
  }

  function Rank(pc: Pc): nat {
    match pc
    case Start => 12 case WantSerial => 11 case AtFlag => 10 case WantMutex => 9 case HasBoth => 8 case Inside => 7
    case Joining(_) => 5 case Leaving => 4 case GiveBack => 3 case InChannel => 3 case Sweeping => 2 case Ended(_) => 0
  }

  function Ranks(s: State): seq<nat> { seq(|s.pcs|, t requires 0 <= t < |s.pcs| => Rank(s.pcs[t])) }

  /** What is left: the calls' own steps, and the handles still to join. */
  function Left(s: State): int { Sum(Ranks(s)) + |s.list| - JoinedSoFar(s) }

  predicate Shorter(s: State, s': State, t: nat)
    requires t < |s.pcs| == |s'.pcs|
  {
    Rank(s'.pcs[t]) + |s'.list| - JoinedSoFar(s') < Rank(s.pcs[t]) + |s.list| - JoinedSoFar(s)
  }

  lemma QuietRank(kinds: seq<Kind>, s: State, l: Label)
    requires Shape(kinds, s) && Enabled(kinds, s, l) && LocksOk(kinds[l.t], s, l.t)
    requires l.Step? ==> !s.pcs[l.t].Joining?
    ensures Shape(kinds, Apply(kinds, s, l)) && Rank(Apply(kinds, s, l).pcs[l.t]) < Rank(s.pcs[l.t])
    ensures l.Step? && s.pcs[l.t] == Inside ==> Rank(Apply(kinds, s, l).pcs[l.t]) <= 5
  {
    var t := l.t;
    if l.Step? {
      match s.pcs[t]
      case AtFlag => case WantMutex => case Inside => case Leaving => case Start =>
      case InChannel => case Sweeping => case _ =>
    }
  }

  lemma JoinRank(kind: Kind, s: State, t: nat)
    requires t < |s.pcs| == |s.joined| == |s.detached| && LocksOk(kind, s, t) && s.pcs[t].Joining? && kind == Disposer
    requires s.pcs[t].k < |s.list| ==> s.list[s.pcs[t].k] < |s.pcs|
    ensures Shorter(s, JoinNext(s, t), t)
  { }

  lemma PushRank(s: State, t: nat)
    requires t < |s.pcs| && LocksOk(Acceptor, s, t) && s.pcs[t] == Inside
    ensures Shorter(s, UseMutex(Acceptor, s, t), t)
  { }

  lemma StepShorter(kinds: seq<Kind>, s: State, l: Label)
    requires Inv(kinds, s) && Enabled(kinds, s, l)
    ensures Shape(kinds, Apply(kinds, s, l)) && Shorter(s, Apply(kinds, s, l), l.t)
  {
    var t := l.t;
    assert LocksOk(kinds[t], s, t);
    LockStep(kinds, s, l);
    if l.Step? && s.pcs[t].Joining? {
      JoinRank(kinds[t], s, t);
    } else if l.Step? && s.pcs[t] == Inside && kinds[t] == Acceptor {
      PushRank(s, t);
    } else {
      QuietStep(kinds, s, l);
      QuietRank(kinds, s, l);
    }
  }

  lemma StepLeft(kinds: seq<Kind>, s: State, l: Label)
    requires Inv(kinds, s) && Enabled(kinds, s, l)
    ensures Left(Apply(kinds, s, l)) < Left(s)
  {
    var s' := Apply(kinds, s, l);
    StepShorter(kinds, s, l);
    LockStep(kinds, s, l);
    SumUpdate(Ranks(s), l.t, Rank(s'.pcs[l.t]));
    assert Ranks(s') == Ranks(s)[l.t := Rank(s'.pcs[l.t])];
  }

  lemma LeftBounds(kinds: seq<Kind>, s: State)
    requires Inv(kinds, s)
    ensures Left(s) >= 0
  {
    if s.exclusive.Some? { assert LocksOk(kinds[s.exclusive.value], s, s.exclusive.value); }
  }

  /** Twelve steps per thread bound every run. */
  lemma {:induction false} RunsEnd(kinds: seq<Kind>, labels: seq<Label>)
    requires Exec(kinds, labels).Some?
    ensures |labels| <= |labels| + Left(Exec(kinds, labels).value) <= 12 * |kinds|
    decreases |labels|
  {
    RunInv(kinds, labels);
    LeftBounds(kinds, Exec(kinds, labels).value);
    if labels == [] {
      SumConstant(Ranks(Init(kinds)), 12);
    } else {
      var n := |labels| - 1;
      RunsEnd(kinds, labels[..n]);
      RunInv(kinds, labels[..n]);
      StepLeft(kinds, Exec(kinds, labels[..n]).value, labels[n]);
    }
  }

  /** Without a teardown every channel thread that did not fail itself ends up in the list. */
  lemma AllAddedWithoutTeardown(kinds: seq<Kind>, labels: seq<Label>, t: nat)
    requires Exec(kinds, labels).Some? && t < |kinds| && kinds[t] == Acceptor && Disposer !in kinds
    requires forall l: Label :: l.Step? ==> !Enabled(kinds, Exec(kinds, labels).value, l)
    ensures var s := Exec(kinds, labels).value; t in s.list <==> Fail(t) !in labels
  {
    HandlesSettled(kinds, labels, t);
    DetachedForReason(kinds, labels, t);
    if Fail(t) in labels { FailedIsSwept(kinds, labels, t); }
    NothingJoined(kinds, labels, t);
    RunInv(kinds, labels);
    ListedIff(kinds, Exec(kinds, labels).value, t);
  }

  lemma ListedIff(kinds: seq<Kind>, s: State, t: nat)
    requires HandleInv(kinds, s) && t < |kinds| && kinds[t] == Acceptor && s.pcs[t].Ended? && s.joined[t] == 0
    ensures t in s.list <==> s.pcs[t] == Ended(false)
  {
    assert HandleOk(kinds[t], s, t);
    if t in s.list {
      var i :| 0 <= i < |s.list| && s.list[i] == t;
      assert EntryOk(kinds, s, i);
    }
  }

  lemma SweptStep(kinds: seq<Kind>, s: State, l: Label, t: nat)
    requires Enabled(kinds, s, l) && t < |kinds|
    requires s.pcs[t] == Sweeping || s.pcs[t] == Ended(true) || l == Fail(t)
    ensures Shape(kinds, Apply(kinds, s, l))
    ensures Apply(kinds, s, l).pcs[t] == Sweeping || Apply(kinds, s, l).pcs[t] == Ended(true)
  { }

  lemma {:induction false} FailedIsSwept(kinds: seq<Kind>, labels: seq<Label>, t: nat)
    requires Exec(kinds, labels).Some? && t < |kinds| && Fail(t) in labels
    ensures |Exec(kinds, labels).value.pcs| == |kinds|
    ensures Exec(kinds, labels).value.pcs[t] == Sweeping || Exec(kinds, labels).value.pcs[t] == Ended(true)
    decreases |labels|
  {
    var n := |labels| - 1;
    assert labels == labels[..n] + [labels[n]];
    if Fail(t) in labels[..n] { FailedIsSwept(kinds, labels[..n], t); }
    SweptStep(kinds, Exec(kinds, labels[..n]).value, labels[n], t);
  }

  lemma {:induction false} NothingJoined(kinds: seq<Kind>, labels: seq<Label>, t: nat)
    requires Exec(kinds, labels).Some? && t < |kinds| && Disposer !in kinds
    ensures |Exec(kinds, labels).value.joined| == |kinds| && Exec(kinds, labels).value.joined[t] == 0
    decreases |labels|
  {
    if labels != [] {
      var n := |labels| - 1;
      NothingJoined(kinds, labels[..n], t);
      RunInv(kinds, labels[..n]);
      assert LocksOk(kinds[labels[n].t], Exec(kinds, labels[..n]).value, labels[n].t);
    }
  }

  /** A run that cannot go on has every thread ended; with a teardown among them, every
      accepted thread's handle was joined or detached, exactly one of the two, exactly once:
      joined when the thread got into the list, detached when it did not. */
  lemma HandlesSettled(kinds: seq<Kind>, labels: seq<Label>, t: nat)
    requires Exec(kinds, labels).Some? && t < |kinds|
    requires forall l: Label :: l.Step? ==> !Enabled(kinds, Exec(kinds, labels).value, l)
    ensures var s := Exec(kinds, labels).value;
            && Shape(kinds, s) && s.pcs[t].Ended?
            && (kinds[t] == Acceptor && Disposer in kinds ==>
                  && s.joined[t] + s.detached[t] == 1
                  && (s.detached[t] == 1 <==> s.pcs[t] == Ended(true)))
  {
    RunInv(kinds, labels);
    var s := Exec(kinds, labels).value;
    forall u | 0 <= u < |kinds| ensures s.pcs[u].Ended? {
      if !s.pcs[u].Ended? {
        var l := NotStuck(kinds, s, u);
        assert false;
      }
    }
    assert HandleOk(kinds[t], s, t);
    if Disposer in kinds {
      var d :| 0 <= d < |kinds| && kinds[d] == Disposer;
      HandlesSafe(kinds, labels, t);
    }
  }
}
