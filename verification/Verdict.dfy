/** Who decides the exit code of xcp (src/client.cpp:106-113, 252-266, 483-501,
    src/xcp.cpp:45-70): channel threads store TRANSFER_FAILED plainly, the portal thread
    stores it or compare-exchanges TRANSFER_UNKNOWN for TRANSFER_SUCCEEDED, and the main
    thread reads the status once dispose has joined them all. Every interleaving. */
module Verdict {
  import opened Basics
  import opened Handshake

  /** Of a thread: what its invoke_portal or invoke_channel returned, None when it returned
      early without getting that far. */
  datatype ThreadState = Idle | Running | Back(ok: bool) | Ended(result: Option<bool>)

  /** `verdict` is the main thread's `success`, once read. */
  datatype State = State(status: Status, portal: ThreadState, chans: seq<ThreadState>, verdict: Option<bool>)

  datatype Label =
    | CreateChannel(i: nat)
    | PortalEarly | PortalBack(ok: bool) | PortalRecord
    | ChannelEarly(i: nat) | ChannelBack(i: nat, ok: bool) | ChannelRecord(i: nat)
    | Read

  function Init(channels: nat): State { State(TransferUnknown, Running, seq(channels, _ => Idle), None) }

  predicate Joined(s: State) {
    s.portal.Ended? && forall i :: 0 <= i < |s.chans| ==> s.chans[i].Ended? || s.chans[i] == Idle
  }

  predicate Enabled(s: State, l: Label) {
    match l
    case CreateChannel(i) => s.portal == Running && i < |s.chans| && s.chans[i] == Idle
    case PortalEarly => s.portal == Running
    case PortalBack(_) => s.portal == Running
    case PortalRecord => s.portal.Back?
    case ChannelEarly(i) => i < |s.chans| && s.chans[i] == Running
    case ChannelBack(i, _) => i < |s.chans| && s.chans[i] == Running
    case ChannelRecord(i) => i < |s.chans| && s.chans[i].Back?
    case Read => Joined(s) && s.verdict == None
  }

  function Apply(s: State, l: Label): State
    requires Enabled(s, l)
  {
    match l
    case CreateChannel(i) => s.(chans := s.chans[i := Running])
    case PortalEarly => s.(portal := Ended(None))
    case PortalBack(ok) => s.(portal := Back(ok))
    case PortalRecord =>
      s.(portal := Ended(Some(s.portal.ok)),
         status := if s.portal.ok then Handshake.Verdict(s.status) else TransferFailed)
    case ChannelEarly(i) => s.(chans := s.chans[i := Ended(None)])
    case ChannelBack(i, ok) => s.(chans := s.chans[i := Back(ok)])
    case ChannelRecord(i) =>
      s.(chans := s.chans[i := Ended(Some(s.chans[i].ok))],
         status := if s.chans[i].ok then s.status else TransferFailed)
    case Read => s.(verdict := Some(s.status == TransferSucceeded))
  }

  function Exec(channels: nat, labels: seq<Label>): Option<State>
    decreases |labels|
  {
    if labels == [] then Some(Init(channels))
    else
      match Exec(channels, labels[..|labels| - 1])
      case None => None
      case Some(s) =>
        var l := labels[|labels| - 1];
        if Enabled(s, l) then Some(Apply(s, l)) else None
  }

  predicate ChannelFailed(s: State) { exists i :: 0 <= i < |s.chans| && s.chans[i] == Ended(Some(false)) }

  /** The status any order of the stores and of the exchange leads to. */
  function Expected(s: State): Status {
    if ChannelFailed(s) || s.portal == Ended(Some(false)) then TransferFailed
    else if s.portal == Ended(Some(true)) then TransferSucceeded
    else TransferUnknown
  }

  predicate Inv(channels: nat, s: State) {
    && |s.chans| == channels && s.status == Expected(s)
    && (s.verdict.Some? ==> Joined(s) && s.verdict == Some(s.status == TransferSucceeded))
  }

  lemma StepInv(channels: nat, s: State, l: Label)
    requires Inv(channels, s) && Enabled(s, l)
    ensures Inv(channels, Apply(s, l))
  {
    var s' := Apply(s, l);
    if ChannelFailed(s) {
      var i :| 0 <= i < |s.chans| && s.chans[i] == Ended(Some(false));
      assert s'.chans[i] == Ended(Some(false));
    }
    if l.ChannelRecord? { assert s'.chans[l.i] == Ended(Some(s.chans[l.i].ok)); }
    if ChannelFailed(s') && !ChannelFailed(s) {
      var i :| 0 <= i < |s'.chans| && s'.chans[i] == Ended(Some(false));
      assert s.chans[i] != Ended(Some(false));
    }
  }

  lemma {:induction false} RunInv(channels: nat, labels: seq<Label>)
    requires Exec(channels, labels).Some?
    ensures Inv(channels, Exec(channels, labels).value)
    decreases |labels|
  {
    if labels != [] {
      var n := |labels| - 1;
      RunInv(channels, labels[..n]);
      StepInv(channels, Exec(channels, labels[..n]).value, labels[n]);
    }
  }

  /** In every interleaving: once everything is joined, the exit code says success if and
      only if invoke_portal returned true and no invoke_channel returned false. */
  lemma FinalVerdict(channels: nat, labels: seq<Label>)
    requires Exec(channels, labels).Some? && Exec(channels, labels).value.verdict.Some?
    ensures var s := Exec(channels, labels).value;
            && |s.chans| == channels && Joined(s)
            && (s.verdict.value <==>
                  s.portal == Ended(Some(true)) && forall i :: 0 <= i < channels ==> s.chans[i] != Ended(Some(false)))
  {
    RunInv(channels, labels);
  }

  // ----- the verdict, read off the run -----

  /** What a thread reported, as far as it is known. */
  predicate Reported(t: ThreadState, ok: bool) { t == Back(ok) || t == Ended(Some(ok)) }

  lemma ReportStep(s: State, l: Label)
    requires Enabled(s, l)
    ensures |Apply(s, l).chans| == |s.chans|
    ensures forall ok :: Reported(Apply(s, l).portal, ok) <==> Reported(s.portal, ok) || l == PortalBack(ok)
    ensures forall i, ok :: 0 <= i < |s.chans| ==>
              (Reported(Apply(s, l).chans[i], ok) <==> Reported(s.chans[i], ok) || l == ChannelBack(i, ok))
    ensures l.ChannelBack? ==> l.i < |s.chans|
  { }

  lemma {:induction false} ReportsOfRun(channels: nat, labels: seq<Label>)
    requires Exec(channels, labels).Some?
    ensures var s := Exec(channels, labels).value;
            && |s.chans| == channels
            && (forall ok :: Reported(s.portal, ok) <==> PortalBack(ok) in labels)
            && (forall i, ok :: 0 <= i < channels ==> (Reported(s.chans[i], ok) <==> ChannelBack(i, ok) in labels))
            && (forall i: nat, ok :: ChannelBack(i, ok) in labels ==> i < channels)
    decreases |labels|
  {
    if labels != [] {
      var n := |labels| - 1;
      assert labels == labels[..n] + [labels[n]];
      ReportsOfRun(channels, labels[..n]);
      ReportStep(Exec(channels, labels[..n]).value, labels[n]);
    }
  }

  /** The exit code of any run says success if and only if in this run invoke_portal returned
      true and no invoke_channel returned false, in whatever order that was recorded. */
  lemma VerdictOfRun(channels: nat, labels: seq<Label>)
    requires Exec(channels, labels).Some? && Exec(channels, labels).value.verdict.Some?
    ensures Exec(channels, labels).value.verdict.value
            <==> PortalBack(true) in labels && forall i: nat :: ChannelBack(i, false) !in labels
  {
    FinalVerdict(channels, labels);
    ReportsOfRun(channels, labels);
    var s := Exec(channels, labels).value;
    forall i | 0 <= i < channels ensures Reported(s.chans[i], false) <==> s.chans[i] == Ended(Some(false)) { }
  }

  /** There is a verdict in the end: a run that cannot go on has one. */
  lemma VerdictReached(channels: nat, labels: seq<Label>)
    requires Exec(channels, labels).Some? && forall l :: !Enabled(Exec(channels, labels).value, l)
    ensures Exec(channels, labels).value.verdict.Some?
  {
    var s := Exec(channels, labels).value;
    PortalRuns(channels, labels);
    assert !Enabled(s, PortalEarly) && !Enabled(s, PortalRecord) && !Enabled(s, Read);
    forall i: nat | i < |s.chans| ensures s.chans[i].Ended? || s.chans[i] == Idle {
      assert !Enabled(s, ChannelEarly(i)) && !Enabled(s, ChannelRecord(i));
    }
  }

  lemma {:induction false} PortalRuns(channels: nat, labels: seq<Label>)
    requires Exec(channels, labels).Some?
    ensures Exec(channels, labels).value.portal != Idle
    decreases |labels|
  {
    if labels != [] { PortalRuns(channels, labels[..|labels| - 1]); }
  }

  function Rank(t: ThreadState): nat { match t case Idle => 3 case Running => 2 case Back(_) => 1 case Ended(_) => 0 }

  function Ranks(s: State): seq<nat> { seq(|s.chans|, i requires 0 <= i < |s.chans| => Rank(s.chans[i])) }

  function Left(s: State): nat { Sum(Ranks(s)) + Rank(s.portal) + if s.verdict == None then 1 else 0 }

  lemma StepLeft(s: State, l: Label)
    requires Enabled(s, l)
    ensures Left(Apply(s, l)) < Left(s)
  {
    var s' := Apply(s, l);
    if l.CreateChannel? || l.ChannelEarly? || l.ChannelBack? || l.ChannelRecord? {
      SumUpdate(Ranks(s), l.i, Rank(s'.chans[l.i]));
      assert Ranks(s') == Ranks(s)[l.i := Rank(s'.chans[l.i])];
    } else {
      assert Ranks(s') == Ranks(s);
    }
  }

  /** Three steps per thread bound every run. */
  lemma {:induction false} RunsEnd(channels: nat, labels: seq<Label>)
    requires Exec(channels, labels).Some?
    ensures |labels| + Left(Exec(channels, labels).value) <= 3 * (channels + 1)
    decreases |labels|
  {
    if labels == [] {
      SumConstant(Ranks(Init(channels)), 3);
    } else {
      RunsEnd(channels, labels[..|labels| - 1]);
      StepLeft(Exec(channels, labels[..|labels| - 1]).value, labels[|labels| - 1]);
    }
  }

  /** A recorded failure is never overwritten, whether it came before or after the exchange. */
  lemma {:induction false} FailureWins(channels: nat, labels: seq<Label>, more: seq<Label>)
    requires Exec(channels, labels).Some? && Exec(channels, labels + more).Some?
    requires Exec(channels, labels).value.status == TransferFailed
    ensures Exec(channels, labels + more).value.status == TransferFailed
    decreases |more|
  {
    if more == [] {
      assert labels + more == labels;
    } else {
      var prev := labels + more[..|more| - 1];
      assert (labels + more)[..|labels + more| - 1] == prev;
      FailureWins(channels, labels, more[..|more| - 1]);
    }
  }

  // ----- the object -----

  /** `transfer_result_status` of client_portal_state. The model-only fields remember what the
      threads reported, in whatever order they did. */
  class PortalResult {
    var status: Status
    var failed: bool
    var portalOk: bool

    ghost predicate Valid()
      reads this
    {
      status == if failed then TransferFailed else if portalOk then TransferSucceeded else TransferUnknown
    }

    constructor ()
      ensures Valid() && !failed && !portalOk
    {
      status, failed, portalOk := TransferUnknown, false, false;
    }

    /** compare_exchange_strong on the status. */
    method CompareExchange(expected: Status, desired: Status) returns (done: bool)
      modifies this`status
      ensures done <==> old(status) == expected
      ensures status == if done then desired else old(status)
    {
      done := status == expected;
      if done {
        status := desired;
      }
    }

    method ChannelReturned(success: bool)
      requires Valid()
      modifies this
      ensures Valid() && portalOk == old(portalOk) && failed == (old(failed) || !success)
    {
      if !success {
        status, failed := TransferFailed, true;
      }
    }

    method PortalReturned(success: bool)
      requires Valid() && !portalOk
      modifies this
      ensures Valid() && portalOk == success && failed == (old(failed) || !success)
    {
      if !success {
        status, failed := TransferFailed, true;
      } else {
        var done := CompareExchange(TransferUnknown, TransferSucceeded);
        portalOk := true;
      }
    }
  }
}
