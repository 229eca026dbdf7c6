/**
 Runs of the whole ropeway put together piece by piece: tourists about, workers serving, and
 workers in the emergency protocol.
 */
module Outings {
  import Pipeline
  import Rides
  import LostPermit
  import opened Constants
  import opened Emergency
  import Ropeway
  import RopewayTheorems

  // ----- one step after another

  /** A run through states with so few chairs that their ids are all different. */
  ghost predicate Early(c: Ropeway.Config, tr: seq<Ropeway.State>)
    requires Ropeway.ValidConfig(c)
  {
    Ropeway.Run(c, tr) && |tr[|tr| - 1].p.chairs| <= TOTAL_CHAIRS
  }

  lemma Continue(c: Ropeway.Config, tr: seq<Ropeway.State>, step: Ropeway.Step, s': Ropeway.State)
    returns (tr': seq<Ropeway.State>)
    requires Ropeway.ValidConfig(c) && Early(c, tr)
    requires Ropeway.Enabled(c, tr[|tr| - 1], step) && s' == Ropeway.Apply(c, tr[|tr| - 1], step)
    ensures Ropeway.Run(c, tr') && tr'[|tr'| - 1] == s'
  {
    tr' := tr + [s'];
    LostPermit.FewAreDistinct(tr[|tr| - 1].p);
    NextIs(c, tr[|tr| - 1], step, s');
    forall n | 0 <= n < |tr'| - 1 ensures Ropeway.StepsAt(c, tr', n) {
      if n < |tr| - 1 { assert Ropeway.StepsAt(c, tr, n); }
    }
  }

  lemma NextIs(c: Ropeway.Config, s: Ropeway.State, step: Ropeway.Step, s': Ropeway.State)
    requires Ropeway.ValidConfig(c) && Ropeway.Enabled(c, s, step) && s' == Ropeway.Apply(c, s, step)
    ensures Ropeway.Next(c, s, s')
  {
  }

  // ----- tourists

  lemma TouristStepIs(c: Ropeway.Config, s: Ropeway.State, step: Pipeline.Step)
    requires Ropeway.ValidConfig(c) && Rides.OfTourist(step) && Pipeline.Enabled(c.pipe, s.p, step) && !s.e.stop
    ensures Ropeway.Enabled(c, s, Ropeway.Pipe(step))
    ensures Ropeway.Apply(c, s, Ropeway.Pipe(step)) == s.(p := Pipeline.Apply(c.pipe, s.p, step))
    ensures Pipeline.Apply(c.pipe, s.p, step).chairs == s.p.chairs
  {
  }

  /** Tourists go about while no emergency is on. */
  lemma {:induction false} Wander(c: Ropeway.Config, tr: seq<Ropeway.State>, path: seq<Pipeline.State>)
    returns (tr': seq<Ropeway.State>)
    requires Ropeway.ValidConfig(c) && Early(c, tr) && Rides.Walk(c.pipe, path)
    requires path[0] == tr[|tr| - 1].p && !tr[|tr| - 1].e.stop
    ensures Early(c, tr') && tr'[|tr'| - 1] == tr[|tr| - 1].(p := path[|path| - 1])
    decreases |path|
  {
    if |path| == 1 {
      tr' := tr;
    } else {
      var front := path[..|path| - 1];
      FrontWalks(c.pipe, path);
      tr' := Wander(c, tr, front);
      assert Rides.WalksAt(c.pipe, path, |path| - 2);
      var step :| Rides.OfTourist(step) && Pipeline.Enabled(c.pipe, path[|path| - 2], step)
                  && path[|path| - 2 + 1] == Pipeline.Apply(c.pipe, path[|path| - 2], step);
      TouristStepIs(c, tr'[|tr'| - 1], step);
      tr' := Continue(c, tr', Ropeway.Pipe(step), tr[|tr| - 1].(p := path[|path| - 1]));
    }
  }

  lemma FrontWalks(c: Pipeline.Config, path: seq<Pipeline.State>)
    requires Rides.Walk(c, path) && |path| >= 2
    ensures Rides.Walk(c, path[..|path| - 1])
  {
    var front := path[..|path| - 1];
    forall n | 0 <= n < |front| - 1 ensures Rides.WalksAt(c, front, n) {
      assert Rides.WalksAt(c, path, n);
      Rides.SameStep(c, path, front, n);
    }
  }

  // ----- workers at their queues

  /** The lower worker serves. */
  lemma LowerServes(c: Ropeway.Config, tr: seq<Ropeway.State>, step: Pipeline.Step, p': Pipeline.State)
    returns (tr': seq<Ropeway.State>)
    requires Ropeway.ValidConfig(c) && Early(c, tr) && Ropeway.WorkerOf(step) == Some(Lower)
    requires tr[|tr| - 1].e.lower.pc == Work && (step.Decide? ==> step.emergency == tr[|tr| - 1].e.stop)
    requires Ropeway.Takes(step) ==> tr[|tr| - 1].lowerDesk == Ropeway.Open
    requires Pipeline.Enabled(c.pipe, tr[|tr| - 1].p, step)
    requires p' == Pipeline.Apply(c.pipe, tr[|tr| - 1].p, step)
    ensures Ropeway.Run(c, tr')
    ensures tr'[|tr'| - 1] ==
              tr[|tr| - 1].(p := p', lowerDesk := if Ropeway.Serves(tr[|tr| - 1].p, step) then Ropeway.Checking
                                                  else if Ropeway.Takes(step) then Ropeway.Busy
                                                  else tr[|tr| - 1].lowerDesk)
  {
    var s := tr[|tr| - 1];
    tr' := Continue(c, tr, Ropeway.Pipe(step), Ropeway.Apply(c, s, Ropeway.Pipe(step)));
  }

  /** The upper worker serves. */
  lemma UpperServes(c: Ropeway.Config, tr: seq<Ropeway.State>, step: Pipeline.Step, p': Pipeline.State)
    returns (tr': seq<Ropeway.State>)
    requires Ropeway.ValidConfig(c) && Early(c, tr) && Ropeway.WorkerOf(step) == Some(Upper)
    requires tr[|tr| - 1].e.upper.pc == Work
    requires Ropeway.Takes(step) ==> tr[|tr| - 1].upperDesk == Ropeway.Open
    requires Pipeline.Enabled(c.pipe, tr[|tr| - 1].p, step)
    requires p' == Pipeline.Apply(c.pipe, tr[|tr| - 1].p, step)
    ensures Ropeway.Run(c, tr')
    ensures tr'[|tr'| - 1] ==
              tr[|tr| - 1].(p := p', upperDesk := if step.CountArrival? then Ropeway.Checking else Ropeway.Busy)
  {
    var s := tr[|tr| - 1];
    tr' := Continue(c, tr, Ropeway.Pipe(step), Ropeway.Apply(c, s, Ropeway.Pipe(step)));
  }

  // ----- workers in the protocol

  /** A signal delivered, or an operation that does not acquire the lock. */
  lemma Act(c: Ropeway.Config, tr: seq<Ropeway.State>, act: Step, e': State) returns (tr': seq<Ropeway.State>)
    requires Ropeway.ValidConfig(c) && Early(c, tr) && (act.Deliver? || act.Go?)
    requires Enabled(Ropeway.Protocol(c), tr[|tr| - 1].e, act)
    requires !Ropeway.Acquires(tr[|tr| - 1], Ropeway.Protect(act))
    requires e' == Apply(Ropeway.Protocol(c), tr[|tr| - 1].e, act)
    ensures Early(c, tr') && tr'[|tr'| - 1] == tr[|tr| - 1].(e := e')
  {
    tr' := Continue(c, tr, Ropeway.Protect(act), tr[|tr| - 1].(e := e'));
  }

  /** A worker acquires the lock. */
  lemma Acquire(c: Ropeway.Config, tr: seq<Ropeway.State>, r: Role, e': State) returns (tr': seq<Ropeway.State>)
    requires Ropeway.ValidConfig(c) && Early(c, tr)
    requires W(tr[|tr| - 1].e, r).pc == TryLock && tr[|tr| - 1].e.lock > 0
    requires e' == Apply(Ropeway.Protocol(c), tr[|tr| - 1].e, Go(r))
    ensures Early(c, tr') && tr'[|tr'| - 1] == tr[|tr| - 1].(e := e', since := |tr[|tr| - 1].es|)
  {
    var s := tr[|tr| - 1];
    tr' := Continue(c, tr, Ropeway.Protect(Go(r)), s.(e := e', since := |s.es|));
  }

  /** The lower worker detects danger, having served somebody. */
  lemma LowerDetects(c: Ropeway.Config, tr: seq<Ropeway.State>, e': State) returns (tr': seq<Ropeway.State>)
    requires Ropeway.ValidConfig(c) && Early(c, tr) && c.pipe.danger
    requires tr[|tr| - 1].lowerDesk == Ropeway.Checking && tr[|tr| - 1].p.low.pc.Loop?
    requires Enabled(Ropeway.Protocol(c), tr[|tr| - 1].e, Danger(Lower))
    requires e' == Apply(Ropeway.Protocol(c), tr[|tr| - 1].e, Danger(Lower))
    ensures Early(c, tr')
    ensures tr'[|tr'| - 1] ==
              tr[|tr| - 1].(e := e', lowerDesk := Ropeway.Open,
                            lowerSeen := tr[|tr| - 1].lowerSeen + [|tr[|tr| - 1].es|])
  {
    var s := tr[|tr| - 1];
    var s' := s.(e := e', lowerDesk := Ropeway.Open, lowerSeen := s.lowerSeen + [|s.es|]);
    tr' := Continue(c, tr, Ropeway.Protect(Danger(Lower)), s');
  }

  lemma UpperDetects(c: Ropeway.Config, tr: seq<Ropeway.State>, e': State) returns (tr': seq<Ropeway.State>)
    requires Ropeway.ValidConfig(c) && Early(c, tr) && c.pipe.danger
    requires tr[|tr| - 1].upperDesk == Ropeway.Checking && tr[|tr| - 1].p.up.hand.None?
    requires Enabled(Ropeway.Protocol(c), tr[|tr| - 1].e, Danger(Upper))
    requires e' == Apply(Ropeway.Protocol(c), tr[|tr| - 1].e, Danger(Upper))
    ensures Early(c, tr')
    ensures tr'[|tr'| - 1] ==
              tr[|tr| - 1].(e := e', upperDesk := Ropeway.Open,
                            upperSeen := tr[|tr| - 1].upperSeen + [|tr[|tr| - 1].es|])
  {
    var s := tr[|tr| - 1];
    var s' := s.(e := e', upperDesk := Ropeway.Open, upperSeen := s.upperSeen + [|s.es|]);
    tr' := Continue(c, tr, Ropeway.Protect(Danger(Upper)), s');
  }

  /** The lower worker goes back to the head of its loop. */
  lemma LowerRestarts(c: Ropeway.Config, tr: seq<Ropeway.State>, e': State) returns (tr': seq<Ropeway.State>)
    requires Ropeway.ValidConfig(c) && Early(c, tr)
    requires tr[|tr| - 1].e.lower.pc == Work && tr[|tr| - 1].p.low.pc.Loop?
    requires tr[|tr| - 1].lowerDesk == Ropeway.Open ==> tr[|tr| - 1].p.low.pending == []
    requires e' == tr[|tr| - 1].e.(lower := tr[|tr| - 1].e.lower.(pc := Top))
    ensures Early(c, tr') && tr'[|tr'| - 1] == tr[|tr| - 1].(e := e', lowerDesk := Ropeway.Open)
  {
    tr' := Continue(c, tr, Ropeway.Protect(Restart(Lower)), tr[|tr| - 1].(e := e', lowerDesk := Ropeway.Open));
  }

  // ----- scenes

  function Fresh(): Worker {
    Worker(Top, false, false, false, 0, false, false, 0, Books(0, 0, 0))
  }

  /** A worker in its tenure, which began at `from`. */
  function Holder(pc: Pc, answered: bool, from: int): Worker {
    Worker(pc, false, false, true, from, true, answered, from, Books(from, 0, 0))
  }

  /** A worker after its tenure. */
  function Released(pc: Pc, from: int): Worker {
    Holder(pc, true, from).(initiator := false, holds := false, start := 0)
  }

  function Scene(lower: Worker, upper: Worker, lock: int, stop: bool, queue: seq<WorkerMsg>, now: int, log: Log): State
  {
    State(lower, upper, lock, stop, queue, now, false, Crowd(0, 0, {}, 0, 0), log)
  }

  /** The release of the lock, logged as the first tenure. */
  lemma ReleaseIs(c: Config, r: Role, s: State, s': State)
    requires W(s, r).pc == Unlock && s.log.tenures == []
    requires s' == Put(s.(lock := s.lock + 1, log := s.log.(tenures := [Tenure(r, W(s, r).acquired, s.now)])), r,
                       W(s, r).(pc := Retire, holds := false))
    ensures s' == Apply(c, s, Go(r))
  {
    var tenure := [Tenure(r, W(s, r).acquired, s.now)];
    assert s.log.tenures + tenure == tenure;
    assert Resume(s, r) == s';
  }

  // ----- somebody boards

  /** The published time as the day begins. */
  function Dawn(c: Ropeway.Config): int
    requires Ropeway.ValidConfig(c)
  {
    Ropeway.Protocol(c).startMs
  }

  /** A party fits the lower station. */
  predicate CanBoard(c: Ropeway.Config, i: nat) {
    i < |c.pipe.parties| && c.pipe.parties[i].stationSlots <= c.pipe.capacity
  }

  /** Where an emergency can happen, somebody can board. */
  lemma Boarder(c: Ropeway.Config) returns (i: nat)
    requires !RopewayTheorems.Harmless(c)
    ensures c.pipe.danger && CanBoard(c, i)
  {
    var k :| 0 <= k < |c.pipe.parties| && !(c.pipe.parties[k].stationSlots > c.pipe.capacity);
    i := k;
  }

  lemma Starts(c: Ropeway.Config, i: nat)
    requires Ropeway.ValidConfig(c) && CanBoard(c, i)
    ensures Rides.Ready(c.pipe, Pipeline.Init(c.pipe)) && Rides.Welcome(c.pipe, Pipeline.Init(c.pipe), i)
  {
  }

  /** The lower worker is at its queue, and one party asks for a seat. */
  lemma OneAsks(c: Ropeway.Config, i: nat) returns (tr: seq<Ropeway.State>)
    requires Ropeway.ValidConfig(c) && CanBoard(c, i)
    ensures Early(c, tr)
    ensures tr[|tr| - 1] ==
              Ropeway.State(Rides.Asked(Pipeline.Init(c.pipe), i),
                            Scene(Fresh().(pc := Work), Fresh(), 1, false, [], Dawn(c), Log([], [], [])),
                            [], 0, [], [], Ropeway.Open, Ropeway.Open)
  {
    var none := Log([], [], []);
    tr := [Ropeway.Init(c)];
    Starts(c, i);
    var path := Rides.AsksAlone(c.pipe, Pipeline.Init(c.pipe), i);
    tr := Wander(c, tr, path);
    tr := Act(c, tr, Go(Lower), Scene(Fresh().(pc := CheckInit), Fresh(), 1, false, [], Dawn(c), none));
    tr := Act(c, tr, Go(Lower), Scene(Fresh().(pc := ReadStop), Fresh(), 1, false, [], Dawn(c), none));
    tr := Act(c, tr, Go(Lower), Scene(Fresh().(pc := Work), Fresh(), 1, false, [], Dawn(c), none));
  }

  /** Its request is buffered: the lower worker is about to check for danger. */
  lemma OneBoards(c: Ropeway.Config, i: nat) returns (tr: seq<Ropeway.State>)
    requires Ropeway.ValidConfig(c) && CanBoard(c, i)
    ensures Early(c, tr)
    ensures tr[|tr| - 1] ==
              Ropeway.State(Rides.Loaded(Pipeline.Init(c.pipe), i),
                            Scene(Fresh().(pc := Work), Fresh(), 1, false, [], Dawn(c), Log([], [], [])),
                            [], 0, [], [], Ropeway.Checking, Ropeway.Open)
  {
    tr := OneAsks(c, i);
    tr := IsLoaded(c, tr, Pipeline.Init(c.pipe), i);
  }

  /** The lower worker takes the one request there is and buffers it. */
  lemma IsLoaded(c: Ropeway.Config, tr: seq<Ropeway.State>, p: Pipeline.State, i: nat)
    returns (tr': seq<Ropeway.State>)
    requires Ropeway.ValidConfig(c) && Early(c, tr) && Rides.Ready(c.pipe, p) && Rides.Welcome(c.pipe, p, i)
    requires tr[|tr| - 1].p == Rides.Asked(p, i)
    requires tr[|tr| - 1].e.lower.pc == Work && !tr[|tr| - 1].e.stop && tr[|tr| - 1].lowerDesk == Ropeway.Open
    ensures Early(c, tr')
    ensures tr'[|tr'| - 1] == tr[|tr| - 1].(p := Rides.Loaded(p, i), lowerDesk := Ropeway.Checking)
  {
    Rides.LoadingIs(c.pipe, p, i);
    tr' := LowerServes(c, tr, Pipeline.Receive, Rides.Grasped(p, i));
    tr' := LowerServes(c, tr', Pipeline.Decide(false), Rides.Loaded(p, i));
  }

  /** Its chair leaves; it rides up, announces itself and comes down again. */
  lemma RidesUp(c: Ropeway.Config, tr: seq<Ropeway.State>, p: Pipeline.State, i: nat)
    returns (tr': seq<Ropeway.State>)
    requires Ropeway.ValidConfig(c) && Early(c, tr) && Rides.Ready(c.pipe, p) && Rides.Welcome(c.pipe, p, i)
    requires tr[|tr| - 1].p == Rides.Loaded(p, i) && |p.chairs| < TOTAL_CHAIRS
    requires tr[|tr| - 1].e.lower.pc == Work && !tr[|tr| - 1].e.stop && tr[|tr| - 1].lowerDesk == Ropeway.Open
    ensures Early(c, tr')
    ensures tr'[|tr'| - 1] == tr[|tr| - 1].(p := Rides.Returned(p, i), lowerDesk := Ropeway.Busy)
  {
    Rides.LeavingIs(c.pipe, p, i);
    tr' := LowerServes(c, tr, Pipeline.Interrupt, Rides.Leaving(p, i));
    tr' := LowerServes(c, tr', Pipeline.Depart(0), Rides.Left(p, i));
    Rides.TellingIs(c.pipe, p, i);
    tr' := LowerServes(c, tr', Pipeline.Confirm, Rides.Told(p, i));
    var path := Rides.FliesOff(c.pipe, p, i);
    tr' := Wander(c, tr', path);
    path := Rides.FliesBack(c.pipe, p, i);
    tr' := Wander(c, tr', path);
  }
}
