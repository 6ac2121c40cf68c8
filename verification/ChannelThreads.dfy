/** `rundown_protection` as an object, and the handle list it protects, as one server thread uses
    them among others (src/infra/rundown_protection.h:11-60, src/server.cpp:343-361, 666-675,
    743-801). Module Rundown treats the same code under every interleaving; here other threads
    may hold the lock, add handles and raise the flag before this thread gets its turn. */
module ChannelThreads {

  /** A std::thread handle. */
  class Thread {
    var joinable: bool
    var joins: nat
    var detaches: nat

    constructor ()
      ensures joinable && joins == 0 && detaches == 0
    {
      joinable, joins, detaches := true, 0, 0;
    }

    method Join()
      requires joinable
      modifies this
      ensures !joinable && joins == old(joins) + 1 && detaches == old(detaches)
    {
      joinable, joins := false, joins + 1;
    }

    method Detach()
      requires joinable
      modifies this
      ensures !joinable && detaches == old(detaches) + 1 && joins == old(joins)
    {
      joinable, detaches := false, detaches + 1;
    }
  }

  class RundownProtection {
    var requiredRundown: bool
    var exclusive: bool
    var readers: nat

    constructor ()
      ensures !requiredRundown && !exclusive && readers == 0
    {
      requiredRundown, exclusive, readers := false, false, 0;
    }

    ghost predicate Valid()
      reads this
    {
      exclusive ==> readers == 0
    }

    /** Whatever other threads do before this one has the serial mutex; the flag never falls. */
    method Others()
      requires Valid()
      modifies this
      ensures Valid() && (old(requiredRundown) ==> requiredRundown)
    {
      var raise, lock: bool, shares: nat := *, *, *;
      requiredRundown := requiredRundown || raise;
      exclusive, readers := lock, if lock then 0 else shares;
    }

    /** One of the holders lets go. Nobody else comes in while the serial mutex is held. */
    method Release()
      requires Valid() && (exclusive || readers > 0)
      modifies this`exclusive, this`readers
      ensures Valid() && !exclusive && readers == if old(exclusive) then 0 else old(readers) - 1
    {
      if exclusive { exclusive := false; } else { readers := readers - 1; }
    }

    method AcquireShared() returns (owns: bool)
      requires Valid()
      modifies this
      ensures Valid() && (old(requiredRundown) ==> !owns)
      ensures owns <==> !requiredRundown
      ensures owns ==> !exclusive && readers > 0
    {
      Others();
      if requiredRundown {
        return false;
      }
      if exclusive {
        Release();
      }
      readers := readers + 1;
      return true;
    }

    method AcquireUnique() returns (owns: bool)
      requires Valid()
      modifies this
      ensures Valid() && (old(requiredRundown) ==> !owns)
      ensures owns <==> !requiredRundown
      ensures owns ==> exclusive && readers == 0
    {
      Others();
      if requiredRundown {
        return false;
      }
      WaitFree();
      exclusive := true;
      return true;
    }

    method AcquireRundown()
      requires Valid()
      modifies this
      ensures Valid() && requiredRundown && exclusive && readers == 0
    {
      Others();
      requiredRundown := true;
      WaitFree();
      exclusive := true;
    }

    /** The lock of std::shared_mutex waits until nobody holds it. */
    method WaitFree()
      requires Valid()
      modifies this`exclusive, this`readers
      ensures Valid() && !exclusive && readers == 0
    {
      while exclusive || readers > 0
        invariant Valid()
        decreases exclusive, readers
      {
        Release();
      }
    }

    method UnlockUnique()
      requires Valid() && exclusive
      modifies this`exclusive
      ensures Valid() && !exclusive
    {
      exclusive := false;
    }
  }

  class ClientInstance {
    const rundown: RundownProtection
    var channelThreads: seq<Thread>

    /** Handles are distinct and joinable. */
    ghost predicate Valid()
      reads this, rundown, channelThreads
    {
      && rundown.Valid()
      && (forall i, j :: 0 <= i < j < |channelThreads| ==> channelThreads[i] != channelThreads[j])
      && (forall i :: 0 <= i < |channelThreads| ==> channelThreads[i].joinable)
    }

    constructor ()
      ensures Valid() && channelThreads == [] && !rundown.requiredRundown && fresh(rundown)
    {
      rundown := new RundownProtection();
      channelThreads := [];
    }

    /** Other channel threads that get the lock first add their handles. */
    method OthersAccept()
      requires Valid()
      modifies this`channelThreads
      ensures Valid() && old(channelThreads) <= channelThreads
      ensures forall i :: |old(channelThreads)| <= i < |channelThreads| ==> fresh(channelThreads[i])
    {
      var n: nat := *;
      while n > 0
        invariant Valid() && old(channelThreads) <= channelThreads
        invariant forall i :: |old(channelThreads)| <= i < |channelThreads| ==> fresh(channelThreads[i])
      {
        var thr := new Thread();
        channelThreads := channelThreads + [thr];
        n := n - 1;
      }
    }

    /** The accepted thread: its handle ends up in the list, behind those that were there and
        those that got in meanwhile, or, when the client is being torn down, the sweeper
        detaches it. */
    method Accept(thr: Thread) returns (added: bool)
      requires Valid() && thr.joinable && thr !in channelThreads
      modifies this, rundown, thr
      ensures Valid()
      ensures (old(rundown.requiredRundown) ==> !added) && (!added ==> rundown.requiredRundown)
      ensures old(channelThreads) <= channelThreads
      ensures if added then |channelThreads| > |old(channelThreads)| && channelThreads[|channelThreads| - 1] == thr
              else thr !in channelThreads
      ensures forall i :: |old(channelThreads)| <= i < |channelThreads| ==>
                channelThreads[i] == thr || fresh(channelThreads[i])
      ensures thr.joinable <==> added
      ensures thr.joins == old(thr.joins) && thr.detaches == old(thr.detaches) + if added then 0 else 1
    {
      OthersAccept();
      added := rundown.AcquireUnique();
      if added {
        channelThreads := channelThreads + [thr];
        rundown.UnlockUnique();
      } else {
        thr.Detach();
      }
    }

    /** The teardown joins every handle of the list once, those included that got in before it
        had the lock, and empties the list. */
    method JoinAll() returns (ghost all: seq<Thread>)
      requires Valid()
      modifies this, rundown, channelThreads
      ensures Valid() && rundown.requiredRundown && channelThreads == []
      ensures old(channelThreads) <= all
      ensures forall thr :: thr in old(channelThreads) ==>
                thr.joins == old(thr.joins) + 1 && thr.detaches == old(thr.detaches)
      ensures forall thr :: thr in all ==> !thr.joinable
    {
      OthersAccept();
      rundown.AcquireRundown();
      all := channelThreads;
      ghost var known := |old(channelThreads)|;
      var i := 0;
      while i < |channelThreads|
        invariant 0 <= i <= |channelThreads| && channelThreads == all
        invariant rundown.Valid() && rundown.requiredRundown && rundown.exclusive
        invariant forall k :: i <= k < |all| ==> all[k].joinable
        invariant forall k :: 0 <= k < i ==> !all[k].joinable
        invariant forall k :: 0 <= k < known ==>
                    && all[k].joins == old(channelThreads[k].joins) + (if k < i then 1 else 0)
                    && all[k].detaches == old(channelThreads[k].detaches)
      {
        channelThreads[i].Join();
        i := i + 1;
      }
      channelThreads := [];
      rundown.UnlockUnique();
    }
  }
}
