/** Tourists that wait for an emergency to clear: there are some whenever there can be an emergency. */
module Waiting {
  import Pipeline
  import Rides
  import opened Emergency
  import Ropeway
  import RopewayTheorems
  import opened Outings
  import EmergencyLimits

  /** Somebody has ridden up and comes back to the platform. */
  function AtPlatform(c: Ropeway.Config, i: nat, at: Pipeline.Place): Pipeline.State
    requires CanBoard(c, i)
  {
    var p := EmergencyLimits.Counted(c, i);
    p.(ts := p.ts[i := Rides.Idler(c.pipe.parties[i], at)], free := p.free.(platform := p.free.platform - 1))
  }

  lemma ComesBack(c: Ropeway.Config, i: nat) returns (tr: seq<Ropeway.State>)
    requires Ropeway.ValidConfig(c) && CanBoard(c, i)
    ensures Early(c, tr)
    ensures tr[|tr| - 1] ==
              Ropeway.State(AtPlatform(c, i, Pipeline.StopCheck),
                            Scene(Fresh().(pc := Work), Fresh().(pc := Work), 1, false, [], Dawn(c), Log([], [], [])),
                            [], 0, [], [], Ropeway.Busy, Ropeway.Checking)
  {
    tr := EmergencyLimits.OneIsCounted(c, i);
    var p := EmergencyLimits.Counted(c, i);
    var path := Rides.ComesToPlatform(c.pipe, [p], i, c.pipe.parties[i]);
    tr := Wander(c, tr, path);
  }

  /** Meanwhile the upper worker, having counted its arrival, detects danger. */
  lemma UpperDetectsDanger(c: Ropeway.Config, i: nat) returns (tr: seq<Ropeway.State>)
    requires Ropeway.ValidConfig(c) && CanBoard(c, i) && c.pipe.danger
    ensures Early(c, tr) && tr[|tr| - 1].p == AtPlatform(c, i, Pipeline.StopCheck)
    ensures tr[|tr| - 1].e == Scene(Fresh().(pc := Work), Fresh().(pc := TryLock, books := Books(Dawn(c), 0, 0)), 1,
                                    false, [], Dawn(c), EmergencyLimits.Log1(c))
  {
    var m, log := Dawn(c), EmergencyLimits.Log1(c);
    tr := ComesBack(c, i);
    tr := UpperDetects(c, tr, Scene(Fresh().(pc := Work), Fresh().(pc := TryLock, books := Books(m, 0, 0)), 1, false,
                                    [], m, log));
  }

  function JustAcquired(now: int): Worker {
    Holder(MarkInit, false, now).(initiator := false, start := 0)
  }

  lemma LockIsTaken(c: Ropeway.Config, i: nat) returns (tr: seq<Ropeway.State>)
    requires Ropeway.ValidConfig(c) && CanBoard(c, i) && c.pipe.danger
    ensures Early(c, tr) && tr[|tr| - 1].p == AtPlatform(c, i, Pipeline.StopCheck)
    ensures tr[|tr| - 1].e ==
              Scene(Fresh().(pc := Work), JustAcquired(Dawn(c)), 0, false, [], Dawn(c), EmergencyLimits.Log1(c))
  {
    tr := UpperDetectsDanger(c, i);
    tr := Acquire(c, tr, Upper, Scene(Fresh().(pc := Work), JustAcquired(Dawn(c)), 0, false, [], Dawn(c),
                                      EmergencyLimits.Log1(c)));
  }

  /** A holder that has just acquired the lock raises emergency_stop. */
  lemma Raises(c: Ropeway.Config, tr: seq<Ropeway.State>, lower: Worker, now: int, log: Log)
    returns (tr': seq<Ropeway.State>)
    requires Ropeway.ValidConfig(c) && Early(c, tr)
    requires tr[|tr| - 1].e == Scene(lower, JustAcquired(now), 0, false, [], now, log)
    ensures Early(c, tr')
    ensures tr'[|tr'| - 1] ==
              tr[|tr| - 1].(e := Scene(lower, Holder(SendUsr1, false, now), 0, true, [], now, log))
  {
    tr' := Act(c, tr, Go(Upper), Scene(lower, Holder(RaiseStop, false, now), 0, false, [], now, log));
    tr' := Act(c, tr', Go(Upper), Scene(lower, Holder(SendUsr1, false, now), 0, true, [], now, log));
  }

  lemma StopIsRaised(c: Ropeway.Config, i: nat) returns (tr: seq<Ropeway.State>)
    requires Ropeway.ValidConfig(c) && CanBoard(c, i) && c.pipe.danger
    ensures Early(c, tr) && tr[|tr| - 1].p == AtPlatform(c, i, Pipeline.StopCheck)
    ensures tr[|tr| - 1].e.stop && tr[|tr| - 1].e.crowd.waiting == {}
  {
    tr := LockIsTaken(c, i);
    tr := Raises(c, tr, Fresh().(pc := Work), Dawn(c), EmergencyLimits.Log1(c));
  }

  lemma Looks(c: Ropeway.Config, s: Ropeway.State, i: nat)
    requires Ropeway.ValidConfig(c) && CanBoard(c, i) && c.pipe.danger && s.e.stop
    requires s.p == AtPlatform(c, i, Pipeline.StopCheck)
    ensures Ropeway.Enabled(c, s, Ropeway.Pipe(Pipeline.ReadStop(i, true)))
    ensures Ropeway.Apply(c, s, Ropeway.Pipe(Pipeline.ReadStop(i, true))) ==
              s.(p := AtPlatform(c, i, Pipeline.StopRegister))
  {
    var p, who := EmergencyLimits.Counted(c, i), c.pipe.parties[i];
    assert p.ts[i := Rides.Idler(who, Pipeline.StopCheck)][i := Rides.Idler(who, Pipeline.StopRegister)]
        == p.ts[i := Rides.Idler(who, Pipeline.StopRegister)];
  }

  lemma LooksAgain(c: Ropeway.Config, s: Ropeway.State, i: nat)
    requires Ropeway.ValidConfig(c) && CanBoard(c, i) && c.pipe.danger && s.e.stop && i !in s.e.crowd.waiting
    requires s.p == AtPlatform(c, i, Pipeline.StopRegister)
    ensures Ropeway.Enabled(c, s, Ropeway.Pipe(Pipeline.ReadStop(i, true)))
    ensures i in Ropeway.Apply(c, s, Ropeway.Pipe(Pipeline.ReadStop(i, true))).e.crowd.waiting
  {
  }

  /** For any party that can board there is a run in which it waits for an emergency to clear. */
  lemma PartyWaits(c: Ropeway.Config, i: nat) returns (tr: seq<Ropeway.State>)
    requires Ropeway.ValidConfig(c) && CanBoard(c, i) && c.pipe.danger
    ensures Ropeway.Run(c, tr) && i in tr[|tr| - 1].e.crowd.waiting
  {
    var look := Ropeway.Pipe(Pipeline.ReadStop(i, true));
    tr := StopIsRaised(c, i);
    Looks(c, tr[|tr| - 1], i);
    tr := Continue(c, tr, look, tr[|tr| - 1].(p := AtPlatform(c, i, Pipeline.StopRegister)));
    LooksAgain(c, tr[|tr| - 1], i);
    tr := Continue(c, tr, look, Ropeway.Apply(c, tr[|tr| - 1], look));
  }

  ghost predicate NobodyWaits(c: Ropeway.Config)
    requires Ropeway.ValidConfig(c)
  {
    forall tr: seq<Ropeway.State> | Ropeway.Run(c, tr) :: tr[|tr| - 1].e.crowd.waiting == {}
  }

  /** No tourist ever waits, in any run, if and only if no emergency can happen: danger detection is
      disabled, or nobody can board. */
  lemma NobodyWaitsIff(c: Ropeway.Config)
    requires Ropeway.ValidConfig(c)
    ensures NobodyWaits(c) <==> RopewayTheorems.Harmless(c)
  {
    if RopewayTheorems.Harmless(c) {
      forall tr: seq<Ropeway.State> | Ropeway.Run(c, tr) ensures tr[|tr| - 1].e.crowd.waiting == {} {
        RopewayTheorems.RunPeaceful(c, tr, |tr| - 1);
      }
    } else {
      var i := Boarder(c);
      var tr := PartyWaits(c, i);
    }
  }
}
