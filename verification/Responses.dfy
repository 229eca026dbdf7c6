/**
 How the workers of the whole ropeway answer an emergency: one that detected danger or was signalled
 serves nobody before the emergency has run its course.
 */
module Responses {
  import opened Constants
  import Pipeline
  import Emergency
  import Alarms
  import SeatTheorems
  import opened Ropeway
  import opened RopewayTheorems

  // ----- the protocol in a run of the whole

  function Protocols(tr: seq<State>): (es: seq<Emergency.State>)
    ensures |es| == |tr| && forall n | 0 <= n < |tr| :: es[n] == tr[n].e
  {
    seq(|tr|, n requires 0 <= n < |tr| => tr[n].e)
  }

  lemma ProtocolMoves(c: Config, tr: seq<State>, n: nat)
    requires ValidConfig(c) && Run(c, tr) && n < |tr| - 1
    ensures tr[n + 1].e == tr[n].e || Emergency.Next(Protocol(c), tr[n].e, tr[n + 1].e)
  {
    var step := StepAt(c, tr, n);
    StepOfProtocol(c, tr[n], step);
  }

  lemma ProtocolsAreStory(c: Config, tr: seq<State>)
    requires ValidConfig(c) && PositiveStart(c) && Run(c, tr)
    ensures Alarms.Story(Protocol(c), Protocols(tr))
  {
    var es := Protocols(tr);
    forall n | 0 <= n < |es| ensures Alarms.SafeAt(Protocol(c), es, n) {
      InvariantHolds(c, tr, n);
    }
    forall n | 0 <= n < |es| - 1 ensures Alarms.MovesAt(Protocol(c), es, n) {
      ProtocolMoves(c, tr, n);
    }
  }

  // ----- a worker serves

  /** Worker `r` does something about its queue or what it took from it. */
  predicate ServedBy(s: State, s': State, r: Emergency.Role) {
    if r == Emergency.Lower then s'.p.low != s.p.low else s'.p.up != s.p.up
  }

  /** It takes something new. */
  predicate TakenUp(s: State, s': State, r: Emergency.Role) {
    if r == Emergency.Lower then s.p.low.pc.Loop? && !s'.p.low.pc.Loop?
    else s.p.up.hand.None? && s'.p.up.hand.Some?
  }

  lemma OthersLeaveWorker(c: Pipeline.Config, p: Pipeline.State, step: Pipeline.Step, r: Emergency.Role)
    requires Pipeline.Enabled(c, p, step) && WorkerOf(step) != Some(r)
    ensures if r == Emergency.Lower then Pipeline.Apply(c, p, step).low == p.low
            else Pipeline.Apply(c, p, step).up == p.up
  {
  }

  lemma ServingStep(c: Config, s: State, step: Step, r: Emergency.Role)
    requires ValidConfig(c) && Enabled(c, s, step) && ServedBy(s, Apply(c, s, step), r)
    ensures step.Pipe? && WorkerOf(step.move) == Some(r)
  {
    StepOfPipeline(c, s, step);
    if step.Pipe? && WorkerOf(step.move) != Some(r) { OthersLeaveWorker(c.pipe, s.p, step.move, r); }
  }

  lemma ServesAtWork(c: Config, tr: seq<State>, n: nat, r: Emergency.Role)
    requires ValidConfig(c) && Run(c, tr) && n < |tr| - 1 && ServedBy(tr[n], tr[n + 1], r)
    ensures Emergency.W(tr[n].e, r).pc == Emergency.Work
  {
    var step := StepAt(c, tr, n);
    ServingStep(c, tr[n], step, r);
  }

  lemma DetectingStep(c: Config, s: State, step: Step, r: Emergency.Role)
    requires ValidConfig(c) && Enabled(c, s, step) && |Seen(s, r)| < |Seen(Apply(c, s, step), r)|
    ensures Emergency.W(Apply(c, s, step).e, r).pc == Emergency.TryLock
  {
  }

  lemma DetectsByTrying(c: Config, tr: seq<State>, n: nat, r: Emergency.Role)
    requires ValidConfig(c) && Run(c, tr) && n < |tr| - 1 && |Seen(tr[n], r)| < |Seen(tr[n + 1], r)|
    ensures Emergency.W(tr[n + 1].e, r).pc == Emergency.TryLock
  {
    var step := StepAt(c, tr, n);
    DetectingStep(c, tr[n], step, r);
  }

  /** After a danger it detected a worker serves nobody before it has gone through a whole emergency,
      as the initiator or, when the other worker has the lock, as the receiver. */
  lemma DangerStopsService(c: Config, tr: seq<State>, n: nat, m: nat, r: Emergency.Role)
    requires ValidConfig(c) && PositiveStart(c) && Run(c, tr) && n < m < |tr| - 1
    requires |Seen(tr[n], r)| < |Seen(tr[n + 1], r)| && ServedBy(tr[m], tr[m + 1], r)
    ensures Alarms.TakesPart(Protocols(tr), n + 1, m, r)
  {
    DetectsByTrying(c, tr, n, r);
    ServesAtWork(c, tr, m, r);
    ProtocolsAreStory(c, tr);
    Alarms.AlarmRunsItsCourse(Protocol(c), Protocols(tr), n + 1, m, r);
  }

  /** On any day it serves nobody before it has raised emergency_stop. */
  lemma DangerRaisesStop(c: Config, tr: seq<State>, n: nat, m: nat, r: Emergency.Role)
    requires ValidConfig(c) && Run(c, tr) && n < m < |tr| - 1
    requires |Seen(tr[n], r)| < |Seen(tr[n + 1], r)| && ServedBy(tr[m], tr[m + 1], r)
    ensures Alarms.Raised(Protocols(tr), n + 1, m, r)
  {
    var es := Protocols(tr);
    DetectsByTrying(c, tr, n, r);
    ServesAtWork(c, tr, m, r);
    forall k | 0 <= k < |es| - 1 ensures Alarms.MovesAt(Protocol(c), es, k) {
      ProtocolMoves(c, tr, k);
    }
    Alarms.DangerRaisesStop(Protocol(c), es, n + 1, m, r);
  }

  // ----- a danger is detected by a worker that has just served

  /** Worker `r` buffers the request in its hand, or is done with the arrival in its hand. */
  predicate Done(s: State, s': State, r: Emergency.Role) {
    if r == Emergency.Lower then
      s.p.low.pc.InHand? && s'.p.low.pending == s.p.low.pending + [s.p.low.pc.req]
    else
      s.p.up.hand.Some? && s'.p.up.hand.None?
  }

  lemma CheckingStep(c: Config, s: State, step: Step, r: Emergency.Role)
    requires ValidConfig(c) && Enabled(c, s, step) && DeskOf(Apply(c, s, step), r) == Checking
    requires |s.p.low.pending| < 4
    ensures |Seen(Apply(c, s, step), r)| == |Seen(s, r)|
    ensures DeskOf(s, r) == Checking || Done(s, Apply(c, s, step), r)
  {
    DesksChange(c, s, step, r);
  }

  lemma FewPending(c: Config, tr: seq<State>, n: nat)
    requires ValidConfig(c) && Run(c, tr) && n < |tr|
    ensures |tr[n].p.low.pending| < 4
  {
    RunUpTo(c, tr, n);
    var part := PipelineOf(c, tr[..n + 1]);
    SeatTheorems.SeatBound(c.pipe, part, |part| - 1);
  }

  lemma {:induction false} CheckingSince(c: Config, tr: seq<State>, n: nat, r: Emergency.Role) returns (k: nat)
    requires ValidConfig(c) && Run(c, tr) && n < |tr| && DeskOf(tr[n], r) == Checking
    ensures k < n && Done(tr[k], tr[k + 1], r) && |Seen(tr[k], r)| == |Seen(tr[n], r)|
    decreases n
  {
    assert n > 0;
    FewPending(c, tr, n - 1);
    var step := StepAt(c, tr, n - 1);
    CheckingStep(c, tr[n - 1], step, r);
    if DeskOf(tr[n - 1], r) == Checking {
      k := CheckingSince(c, tr, n - 1, r);
    } else {
      k := n - 1;
    }
  }

  /** Every danger a worker detects has a service of its own before it: since its last danger the
      worker has buffered a request, or counted an arrival. */
  lemma DangerFollowsService(c: Config, tr: seq<State>, n: nat, r: Emergency.Role) returns (k: nat)
    requires ValidConfig(c) && Run(c, tr) && n < |tr| - 1 && |Seen(tr[n], r)| < |Seen(tr[n + 1], r)|
    ensures k < n && Done(tr[k], tr[k + 1], r) && |Seen(tr[k], r)| == |Seen(tr[n], r)|
  {
    var step := StepAt(c, tr, n);
    assert step == Protect(Emergency.Danger(r));
    k := CheckingSince(c, tr, n, r);
  }

  // ----- between two messages

  lemma TakingOpens(c: Config, s: State, step: Step, r: Emergency.Role)
    requires ValidConfig(c) && Enabled(c, s, step) && TakenUp(s, Apply(c, s, step), r)
    ensures DeskOf(s, r) == Open && DeskOf(Apply(c, s, step), r) != Open
  {
    ServingStep(c, s, step, r);
    DesksChange(c, s, step, r);
  }

  lemma TakenAtDesk(c: Config, tr: seq<State>, n: nat, r: Emergency.Role)
    requires ValidConfig(c) && Run(c, tr) && n < |tr| - 1 && TakenUp(tr[n], tr[n + 1], r)
    ensures DeskOf(tr[n], r) == Open && DeskOf(tr[n + 1], r) != Open
    ensures Emergency.W(tr[n].e, r).pc == Emergency.Work
  {
    var step := StepAt(c, tr, n);
    TakingOpens(c, tr[n], step, r);
    ServesAtWork(c, tr, n, r);
  }

  lemma OpeningStep(c: Config, s: State, step: Step, r: Emergency.Role)
    requires ValidConfig(c) && Enabled(c, s, step) && DeskOf(s, r) != Open && DeskOf(Apply(c, s, step), r) == Open
    ensures Emergency.W(Apply(c, s, step).e, r).pc in {Emergency.Top, Emergency.TryLock}
  {
    DesksChange(c, s, step, r);
  }

  /** A worker comes by the head of its loop, or detects danger, before it takes something new. */
  lemma {:induction false} DeskOpens(c: Config, tr: seq<State>, k: nat, m: nat, r: Emergency.Role) returns (j: nat)
    requires ValidConfig(c) && Run(c, tr) && k <= m < |tr| && DeskOf(tr[k], r) != Open && DeskOf(tr[m], r) == Open
    ensures k < j <= m && Emergency.W(tr[j].e, r).pc in {Emergency.Top, Emergency.TryLock}
    decreases m
  {
    if DeskOf(tr[m - 1], r) == Open {
      j := DeskOpens(c, tr, k, m - 1, r);
    } else {
      var step := StepAt(c, tr, m - 1);
      OpeningStep(c, tr[m - 1], step, r);
      j := m;
    }
  }

  /** A worker flagged by SIGUSR1 takes at most one more message before it has gone through a whole
      emergency. */
  lemma SignalStopsService(c: Config, tr: seq<State>, n: nat, k: nat, m: nat, r: Emergency.Role)
    requires ValidConfig(c) && PositiveStart(c) && Run(c, tr) && n <= k < m < |tr| - 1
    requires Emergency.W(tr[n].e, r).flag && TakenUp(tr[k], tr[k + 1], r) && TakenUp(tr[m], tr[m + 1], r)
    ensures Alarms.TakesPart(Protocols(tr), n, m, r)
  {
    var es := Protocols(tr);
    TakenAtDesk(c, tr, k, r);
    TakenAtDesk(c, tr, m, r);
    ProtocolsAreStory(c, tr);
    var j := DeskOpens(c, tr, k + 1, m, r);
    if Emergency.W(es[j], r).pc == Emergency.Top {
      Alarms.SignalRunsItsCourse(Protocol(c), es, n, j, m, r);
    } else {
      Alarms.AlarmRunsItsCourse(Protocol(c), es, j, m, r);
      Alarms.TakesPartSince(es, n, j, m, r);
    }
  }

  /** The lower worker comes to its queue only by reading emergency_stop clear at its loop head. */
  lemma LowerWorkerChecksStop(c: Config, tr: seq<State>, n: nat)
    requires ValidConfig(c) && Run(c, tr) && n < |tr| - 1
    requires tr[n].e.lower.pc != Emergency.Work && tr[n + 1].e.lower.pc == Emergency.Work
    ensures !tr[n].e.stop
  {
    ProtocolMoves(c, tr, n);
    Alarms.LowerReadsStop(Protocol(c), tr[n].e, tr[n + 1].e);
  }
}
