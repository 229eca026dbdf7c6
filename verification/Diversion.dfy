/**
 A day that starts at midnight: the start of an emergency at time 0 reads as "none", so that the
 worker that started it forgets that it did, and acknowledges itself.
 */
module Diversion {
  import opened Emergency
  import Ropeway
  import RopewayTheorems
  import opened Outings

  /** The worker that holds the emergency lock acknowledges an emergency. */
  predicate Diverted(w: Worker) {
    w.holds && InAcknowledge(w.pc)
  }

  ghost predicate NeverDiverted(c: Ropeway.Config)
    requires Ropeway.ValidConfig(c)
  {
    forall tr: seq<Ropeway.State> | Ropeway.Run(c, tr) ::
      !Diverted(tr[|tr| - 1].e.lower) && !Diverted(tr[|tr| - 1].e.upper)
  }

  function Holding(pc: Pc, initiator: bool): Worker {
    Worker(pc, false, false, initiator, 0, true, false, 0, Books(0, 0, 0))
  }

  function Seen0(): Log {
    Log([], [0], [])
  }

  /** Somebody boards at midnight, and the lower worker detects danger. */
  lemma DetectsAtMidnight(c: Ropeway.Config, i: nat) returns (tr: seq<Ropeway.State>)
    requires Ropeway.ValidConfig(c) && CanBoard(c, i) && c.pipe.danger && c.day.start == 0
    ensures Early(c, tr)
    ensures tr[|tr| - 1].e == Scene(Fresh().(pc := TryLock), Fresh(), 1, false, [], 0, Seen0())
  {
    tr := OneBoards(c, i);
    tr := LowerDetects(c, tr, Scene(Fresh().(pc := TryLock), Fresh(), 1, false, [], 0, Seen0()));
  }

  /** It acquires the lock. */
  lemma AcquiresAtMidnight(c: Ropeway.Config, i: nat) returns (tr: seq<Ropeway.State>)
    requires Ropeway.ValidConfig(c) && CanBoard(c, i) && c.pipe.danger && c.day.start == 0
    ensures Early(c, tr) && tr[|tr| - 1].e == Scene(Holding(MarkInit, false), Fresh(), 0, false, [], 0, Seen0())
  {
    tr := DetectsAtMidnight(c, i);
    LockingIs(Ropeway.Protocol(c), tr[|tr| - 1].e);
    tr := Acquire(c, tr, Lower, Scene(Holding(MarkInit, false), Fresh(), 0, false, [], 0, Seen0()));
  }

  lemma LockingIs(c: Config, e: State)
    requires e == Scene(Fresh().(pc := TryLock), Fresh(), 1, false, [], 0, Seen0())
    ensures Apply(c, e, Go(Lower)) == Scene(Holding(MarkInit, false), Fresh(), 0, false, [], 0, Seen0())
  {
    assert Operate(c, e, Lower) == Trigger(e, Lower);
  }

  /** It starts an emergency. */
  lemma StartsAtMidnight(c: Ropeway.Config, i: nat) returns (tr: seq<Ropeway.State>)
    requires Ropeway.ValidConfig(c) && CanBoard(c, i) && c.pipe.danger && c.day.start == 0
    ensures Early(c, tr) && tr[|tr| - 1].e == Scene(Holding(SendUsr1, true), Fresh(), 0, true, [], 0, Seen0())
  {
    tr := AcquiresAtMidnight(c, i);
    tr := Act(c, tr, Go(Lower), Scene(Holding(RaiseStop, true), Fresh(), 0, false, [], 0, Seen0()));
    tr := Act(c, tr, Go(Lower), Scene(Holding(SendUsr1, true), Fresh(), 0, true, [], 0, Seen0()));
  }

  /** It forgets, and acknowledges itself. */
  lemma MidnightDivertsHolder(c: Ropeway.Config, i: nat) returns (tr: seq<Ropeway.State>)
    requires Ropeway.ValidConfig(c) && CanBoard(c, i) && c.pipe.danger && c.day.start == 0
    ensures Ropeway.Run(c, tr) && Diverted(tr[|tr| - 1].e.lower)
  {
    var upper := Fresh().(pending := true);
    tr := StartsAtMidnight(c, i);
    tr := Act(c, tr, Go(Lower), Scene(Holding(Top, true), upper, 0, true, [], 0, Seen0()));
    tr := Act(c, tr, Go(Lower), Scene(Holding(CheckInit, true), upper, 0, true, [], 0, Seen0()));
    tr := Act(c, tr, Go(Lower), Scene(Holding(ReadStop, true), upper, 0, true, [], 0, Seen0()));
    tr := Act(c, tr, Go(Lower), Scene(Holding(AckEnter, true), upper, 0, true, [], 0, Seen0()));
  }

  lemma HolderGoesOn(c: Ropeway.Config, tr: seq<Ropeway.State>)
    requires Ropeway.ValidConfig(c) && Ropeway.Run(c, tr)
    requires RopewayTheorems.PositiveStart(c) || RopewayTheorems.Harmless(c)
    ensures !Diverted(tr[|tr| - 1].e.lower) && !Diverted(tr[|tr| - 1].e.upper)
  {
    if RopewayTheorems.PositiveStart(c) {
      RopewayTheorems.InvariantHolds(c, tr, |tr| - 1);
    } else {
      RopewayTheorems.NoDangerNoStop(c, tr, |tr| - 1);
    }
  }

  /** The worker that holds the lock is never diverted into acknowledging, in any run of the whole
      ropeway, if and only if the day does not start at midnight, or no emergency can happen: danger
      detection is disabled, or nobody can board. */
  lemma NeverDivertedIff(c: Ropeway.Config)
    requires Ropeway.ValidConfig(c)
    ensures NeverDiverted(c) <==> RopewayTheorems.PositiveStart(c) || RopewayTheorems.Harmless(c)
  {
    if RopewayTheorems.PositiveStart(c) || RopewayTheorems.Harmless(c) {
      forall tr: seq<Ropeway.State> | Ropeway.Run(c, tr)
        ensures !Diverted(tr[|tr| - 1].e.lower) && !Diverted(tr[|tr| - 1].e.upper)
      {
        HolderGoesOn(c, tr);
      }
    } else {
      var i := Boarder(c);
      var tr := MidnightDivertsHolder(c, i);
    }
  }
}
