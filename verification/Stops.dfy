/**
 What emergency_stop stops: nobody is given a seat, and no tourist asks for one, by a reading that
 finds it raised.
 */
module Stops {
  import Pipeline
  import Boarding
  import BoardingSteps
  import PipelineTheorems
  import opened Ropeway
  import opened RopewayTheorems

  // ----- seats

  lemma PlatformHolds(c: Config, tr: seq<State>, n: nat)
    requires ValidConfig(c) && Run(c, tr) && n < |tr|
    ensures Boarding.PlatformOk(tr[n].p)
  {
    RunUpTo(c, tr, n);
    var part := PipelineOf(c, tr[..n + 1]);
    PlatformAt(c.pipe, part);
  }

  lemma PlatformAt(c: Pipeline.Config, part: seq<Pipeline.State>)
    requires Pipeline.ValidConfig(c) && Pipeline.Run(c, part)
    ensures Boarding.PlatformOk(part[|part| - 1])
  {
    var p := part[|part| - 1];
    assert PipelineTheorems.Inv(c, p) by { PipelineTheorems.RunInv(c, part, |part| - 1); }
    InvHasPlatform(c, p);
  }

  lemma InvHasPlatform(c: Pipeline.Config, p: Pipeline.State)
    requires PipelineTheorems.Inv(c, p)
    ensures Boarding.PlatformOk(p)
  {
  }

  /** How many requests have been given a seat: those of the chairs that left, and those pending. */
  function Seats(p: Pipeline.State): int {
    Boarding.Base(p) + |p.low.pending|
  }

  /** At this moment the worker gives a seat to request `q`, the one in its hand. */
  predicate SeatGiven(s: State, s': State, q: nat) {
    && !s.e.stop
    && q < |s.p.sent| && s.p.low.pc == Pipeline.InHand(s.p.sent[q])
    && s'.p.low.pending == s.p.low.pending + [s.p.sent[q]]
  }

  lemma HandIsNext(p: Pipeline.State)
    requires Boarding.Ordered(p) && p.low.pc.InHand?
    ensures 0 <= Seats(p) < |p.sent| && p.sent[Seats(p)] == p.low.pc.req
  {
    BoardingSteps.Placement(p);
    assert Boarding.Hand(p.low) == [p.low.pc.req];
  }

  lemma DecidingSeats(p: Pipeline.State, emergency: bool)
    requires Boarding.PlatformOk(p) && p.low.pc.InHand?
    ensures var p' := Pipeline.ApplyDecide(p, emergency);
            || (Seats(p') == Seats(p) && p'.low.pending == p.low.pending)
            || (!emergency && Seats(p') == Seats(p) + 1 && p'.low.pending == p.low.pending + [p.low.pc.req])
  {
  }

  lemma OthersGiveNoSeat(c: Pipeline.Config, p: Pipeline.State, step: Pipeline.Step)
    requires Pipeline.Enabled(c, p, step) && !step.Decide? && Boarding.Ordered(p)
    ensures Seats(Pipeline.Apply(c, p, step)) == Seats(p)
    ensures |Pipeline.Apply(c, p, step).low.pending| <= |p.low.pending|
  {
  }

  lemma SeatStep(c: Config, s: State, step: Step)
    requires ValidConfig(c) && Enabled(c, s, step) && Boarding.PlatformOk(s.p)
    ensures var s' := Apply(c, s, step);
            || (Seats(s'.p) == Seats(s.p) && |s'.p.low.pending| <= |s.p.low.pending|)
            || (Seats(s'.p) == Seats(s.p) + 1 && Seats(s.p) >= 0 && SeatGiven(s, s', Seats(s.p)))
  {
    StepOfPipeline(c, s, step);
    if step.Pipe? {
      if step.move.Decide? {
        HandIsNext(s.p);
        DecidingSeats(s.p, step.move.emergency);
      } else {
        OthersGiveNoSeat(c.pipe, s.p, step.move);
      }
    }
  }

  lemma SeatAt(c: Config, tr: seq<State>, n: nat)
    requires ValidConfig(c) && Run(c, tr) && n < |tr| - 1
    ensures || (Seats(tr[n + 1].p) == Seats(tr[n].p) && |tr[n + 1].p.low.pending| <= |tr[n].p.low.pending|)
            || (Seats(tr[n + 1].p) == Seats(tr[n].p) + 1 && Seats(tr[n].p) >= 0
                && SeatGiven(tr[n], tr[n + 1], Seats(tr[n].p)))
  {
    PlatformHolds(c, tr, n);
    var step := StepAt(c, tr, n);
    SeatStep(c, tr[n], step);
  }

  /** The chair being loaded takes another party only while emergency_stop is clear: the one in the
      worker's hand. */
  lemma LoadsOnlyWithoutStop(c: Config, tr: seq<State>, n: nat)
    requires ValidConfig(c) && Run(c, tr) && n < |tr| - 1
    requires |tr[n + 1].p.low.pending| > |tr[n].p.low.pending|
    ensures !tr[n].e.stop && tr[n].p.low.pc.InHand?
    ensures tr[n + 1].p.low.pending == tr[n].p.low.pending + [tr[n].p.low.pc.req]
  {
    SeatAt(c, tr, n);
  }

  /** For every party confirmed or pending there was a moment of the run at which it was given its
      seat with emergency_stop clear. */
  lemma {:induction false} EverySeatWithoutStop(c: Config, tr: seq<State>, n: nat, q: nat)
    requires ValidConfig(c) && Run(c, tr) && n < |tr|
    requires q < |tr[n].p.confirmed| || q < Seats(tr[n].p)
    ensures exists k :: 0 <= k < n && SeatGiven(tr[k], tr[k + 1], q)
    decreases n
  {
    PlatformHolds(c, tr, n);
    assert q < Seats(tr[n].p);
    if n > 0 {
      SeatAt(c, tr, n - 1);
      if q < Seats(tr[n - 1].p) {
        EverySeatWithoutStop(c, tr, n - 1, q);
      } else {
        assert SeatGiven(tr[n - 1], tr[n - 1 + 1], q);
      }
    }
  }

  // ----- put back

  lemma OthersKeepWorker(c: Config, s: State, step: Step)
    requires ValidConfig(c) && Enabled(c, s, step) && s.p.low.pc.PutBack?
    ensures var p' := Apply(c, s, step).p;
            && p'.confirmed == s.p.confirmed && |p'.chairs| == |s.p.chairs|
            && (p'.low == s.p.low
                || (p'.low == s.p.low.(pc := Pipeline.Loop)
                    && p'.queue == s.p.queue + [Pipeline.PlatformMsg(1, s.p.low.pc.req)]))
  {
  }

  /** The worker still holds the request it is to put back. */
  predicate Holding(s: State, s': State, r: Pipeline.Req) {
    && s'.p.low == s.p.low.(pc := Pipeline.PutBack(r))
    && s'.p.confirmed == s.p.confirmed && |s'.p.chairs| == |s.p.chairs|
  }

  lemma StopMeansPutBack(c: Config, s: State, step: Step, r: Pipeline.Req)
    requires ValidConfig(c) && Enabled(c, s, step) && s.e.stop && s.p.low.pc == Pipeline.InHand(r)
    requires Apply(c, s, step).p.low.pc != s.p.low.pc
    ensures Holding(s, Apply(c, s, step), r)
  {
    StepOfPipeline(c, s, step);
  }

  lemma LastOfTypeOne(q: seq<Pipeline.PlatformMsg>, r: Pipeline.Req)
    requires Pipeline.OfType(q, 1) == []
    ensures var q' := q + [Pipeline.PlatformMsg(1, r)];
            && Pipeline.NextMessage(q') < |q'| && q'[Pipeline.NextMessage(q')] == Pipeline.PlatformMsg(1, r)
  {
    Boarding.NoneOfType(q, 1);
    var q' := q + [Pipeline.PlatformMsg(1, r)];
    assert q'[|q|].mtype == 1;
    assert forall j | 0 <= j < |q| :: q'[j] == q[j];
    assert Pipeline.FirstOf(q', 1) == |q|;
  }

  /** The worker puts back what it holds, as the next request to be received. */
  predicate PutsBack(s: State, s': State) {
    && s.p.low.pc.PutBack? && s'.p.low == s.p.low.(pc := Pipeline.Loop)
    && s'.p.confirmed == s.p.confirmed && |s'.p.chairs| == |s.p.chairs|
    && var q := s'.p.queue;
       Pipeline.NextMessage(q) < |q| && q[Pipeline.NextMessage(q)] == Pipeline.PlatformMsg(1, s.p.low.pc.req)
  }

  lemma PutsBackNext(c: Config, s: State, step: Step)
    requires ValidConfig(c) && Enabled(c, s, step) && Boarding.PlatformOk(s.p) && s.p.low.pc.PutBack?
    requires Apply(c, s, step).p.low.pc.Loop?
    ensures PutsBack(s, Apply(c, s, step))
  {
    OthersKeepWorker(c, s, step);
    assert Boarding.Hand(s.p.low) == [s.p.low.pc.req];
    LastOfTypeOne(s.p.queue, s.p.low.pc.req);
  }

  lemma {:induction false} HoldsUntilPutBack(c: Config, tr: seq<State>, n: nat, m: nat, r: Pipeline.Req)
    requires ValidConfig(c) && Run(c, tr) && n < m < |tr| && tr[n].p.low.pc == Pipeline.InHand(r)
    requires tr[n].e.stop && tr[n + 1].p.low.pc != tr[n].p.low.pc
    requires forall k | n < k <= m :: !tr[k].p.low.pc.Loop?
    ensures Holding(tr[n], tr[m], r)
    decreases m
  {
    if m == n + 1 {
      var step := StepAt(c, tr, n);
      StopMeansPutBack(c, tr[n], step, r);
    } else {
      HoldsUntilPutBack(c, tr, n, m - 1, r);
      var step := StepAt(c, tr, m - 1);
      OthersKeepWorker(c, tr[m - 1], step);
    }
  }

  /** A request in hand that is decided on with emergency_stop raised is the next to be received, and
      has priority, by the time the worker is back at its queue; the chair being loaded, the chairs
      that left and the confirmations are as they were. */
  lemma StopPutsBack(c: Config, tr: seq<State>, n: nat, m: nat, r: Pipeline.Req)
    requires ValidConfig(c) && Run(c, tr) && n < m < |tr| && tr[n].p.low.pc == Pipeline.InHand(r)
    requires tr[n].e.stop && tr[n + 1].p.low.pc != tr[n].p.low.pc
    requires tr[m].p.low.pc.Loop? && forall k | n < k < m :: !tr[k].p.low.pc.Loop?
    ensures tr[m].p.low == tr[n].p.low.(pc := Pipeline.Loop)
    ensures tr[m].p.confirmed == tr[n].p.confirmed && |tr[m].p.chairs| == |tr[n].p.chairs|
    ensures var q := tr[m].p.queue;
            Pipeline.NextMessage(q) < |q| && q[Pipeline.NextMessage(q)] == Pipeline.PlatformMsg(1, r)
  {
    PutBackTakesASecondStep(c, tr, n, r);
    HoldsUntilPutBack(c, tr, n, m - 1, r);
    PlatformHolds(c, tr, m - 1);
    PutsBackAt(c, tr, m - 1);
  }

  lemma PutBackTakesASecondStep(c: Config, tr: seq<State>, n: nat, r: Pipeline.Req)
    requires ValidConfig(c) && Run(c, tr) && n < |tr| - 1 && tr[n].p.low.pc == Pipeline.InHand(r)
    requires tr[n].e.stop && tr[n + 1].p.low.pc != tr[n].p.low.pc
    ensures !tr[n + 1].p.low.pc.Loop?
  {
    var step := StepAt(c, tr, n);
    StopMeansPutBack(c, tr[n], step, r);
  }

  lemma PutsBackAt(c: Config, tr: seq<State>, n: nat)
    requires ValidConfig(c) && Run(c, tr) && n < |tr| - 1 && Boarding.PlatformOk(tr[n].p)
    requires tr[n].p.low.pc.PutBack? && tr[n + 1].p.low.pc.Loop?
    ensures PutsBack(tr[n], tr[n + 1])
  {
    var step := StepAt(c, tr, n);
    PutsBackNext(c, tr[n], step);
  }

  // ----- tourists

  /** Tourist `i` goes on to ask for a seat: it read emergency_stop clear, or took a permit from those
      that had it wait. */
  predicate Cleared(s: State, s': State, i: nat) {
    && i < |s.p.ts|
    && if s.p.ts[i].at == Pipeline.StopWait then
         i in s.e.crowd.waiting && i !in s'.e.crowd.waiting && s.e.crowd.clear == s'.e.crowd.clear + 1
       else
         s.p.ts[i].at in {Pipeline.StopCheck, Pipeline.StopRegister} && !s.e.stop
  }

  /** The tourist stands where it asks for a seat. */
  predicate Asking(s: State, i: nat) {
    i < |s.p.ts| && s.p.ts[i].at == Pipeline.Request
  }

  lemma AskingNeedsClearance(c: Config, s: State, step: Step, i: nat)
    requires ValidConfig(c) && Enabled(c, s, step) && !Asking(s, i) && Asking(Apply(c, s, step), i)
    ensures Cleared(s, Apply(c, s, step), i)
  {
    StepOfPipeline(c, s, step);
    OnlyClearanceLeadsToAsking(c.pipe, s.p, step.move, i);
  }

  lemma OnlyClearanceLeadsToAsking(c: Pipeline.Config, p: Pipeline.State, step: Pipeline.Step, i: nat)
    requires Pipeline.Enabled(c, p, step) && i < |Pipeline.Apply(c, p, step).ts|
    requires i < |p.ts| ==> p.ts[i].at != Pipeline.Request
    requires Pipeline.Apply(c, p, step).ts[i].at == Pipeline.Request
    ensures i < |p.ts| && (step == Pipeline.PassClear(i) || step == Pipeline.ReadStop(i, false))
  {
  }

  /** A tourist comes to ask for a seat only by a reading that finds emergency_stop clear, or by a
      permit that ends its wait. */
  lemma AsksOnlyWhenCleared(c: Config, tr: seq<State>, n: nat, i: nat)
    requires ValidConfig(c) && Run(c, tr) && n < |tr| - 1 && !Asking(tr[n], i) && Asking(tr[n + 1], i)
    ensures Cleared(tr[n], tr[n + 1], i)
  {
    var step := StepAt(c, tr, n);
    AskingNeedsClearance(c, tr[n], step, i);
  }

  lemma ReadingHoldsBack(c: Config, s: State, step: Step, i: nat)
    requires ValidConfig(c) && Enabled(c, s, step) && s.e.stop && i < |s.p.ts|
    requires s.p.ts[i].at in {Pipeline.StopCheck, Pipeline.StopRegister}
    requires Apply(c, s, step).p.ts[i].at != s.p.ts[i].at
    ensures var s' := Apply(c, s, step);
            if s.p.ts[i].at == Pipeline.StopCheck then s'.p.ts[i].at == Pipeline.StopRegister
            else s'.p.ts[i].at == Pipeline.StopWait && i in s'.e.crowd.waiting
                 && s'.e.crowd.waiters == s.e.crowd.waiters + 1
  {
  }

  /** A tourist that finds emergency_stop raised looks again, and if it is still raised is counted
      among those that wait. */
  lemma StopHoldsTourists(c: Config, tr: seq<State>, n: nat, i: nat)
    requires ValidConfig(c) && Run(c, tr) && n < |tr| - 1 && tr[n].e.stop && i < |tr[n].p.ts| == |tr[n + 1].p.ts|
    requires tr[n].p.ts[i].at in {Pipeline.StopCheck, Pipeline.StopRegister}
    requires tr[n + 1].p.ts[i].at != tr[n].p.ts[i].at
    ensures tr[n].p.ts[i].at == Pipeline.StopCheck ==> tr[n + 1].p.ts[i].at == Pipeline.StopRegister
    ensures tr[n].p.ts[i].at == Pipeline.StopRegister ==>
              tr[n + 1].p.ts[i].at == Pipeline.StopWait && i in tr[n + 1].e.crowd.waiting
              && tr[n + 1].e.crowd.waiters == tr[n].e.crowd.waiters + 1
  {
    var step := StepAt(c, tr, n);
    ReadingHoldsBack(c, tr[n], step, i);
  }

  lemma LeavingTheWait(c: Config, s: State, step: Step, i: nat)
    requires ValidConfig(c) && Enabled(c, s, step) && i < |s.p.ts| && s.p.ts[i].at == Pipeline.StopWait
    requires Apply(c, s, step).p.ts[i].at != Pipeline.StopWait
    ensures Asking(Apply(c, s, step), i)
  {
  }

  /** A tourist that waits goes on exactly when there is a permit for it, and then asks for its seat
      without looking again. */
  lemma PermitLetsGo(c: Config, tr: seq<State>, n: nat, i: nat)
    requires ValidConfig(c) && Run(c, tr) && n < |tr| && i < |tr[n].p.ts| && tr[n].p.ts[i].at == Pipeline.StopWait
    ensures Enabled(c, tr[n], Pipe(Pipeline.PassClear(i))) <==> tr[n].e.crowd.clear > 0
    ensures n < |tr| - 1 && i < |tr[n + 1].p.ts| && tr[n + 1].p.ts[i].at != Pipeline.StopWait ==>
              Asking(tr[n + 1], i) && Cleared(tr[n], tr[n + 1], i)
  {
    RunCrowd(c, tr, n);
    assert i in AtStopWait(tr[n].p);
    if n < |tr| - 1 && i < |tr[n + 1].p.ts| && tr[n + 1].p.ts[i].at != Pipeline.StopWait {
      var step := StepAt(c, tr, n);
      LeavingTheWait(c, tr[n], step, i);
      AskingNeedsClearance(c, tr[n], step, i);
    }
  }

  /** Tourist `i` was cleared in step `k`, and has been about to ask for its seat ever since. */
  ghost predicate ClearedAt(tr: seq<State>, k: nat, n: nat, i: nat)
    requires n < |tr|
  {
    && k < n && !Asking(tr[k], i) && Cleared(tr[k], tr[k + 1], i)
    && forall j | k < j <= n :: Asking(tr[j], i)
  }

  lemma {:induction false} AskersAreCleared(c: Config, tr: seq<State>, n: nat, i: nat) returns (k: nat)
    requires ValidConfig(c) && Run(c, tr) && n < |tr| && Asking(tr[n], i)
    ensures ClearedAt(tr, k, n, i)
    decreases n
  {
    assert n > 0;
    if Asking(tr[n - 1], i) {
      k := AskersAreCleared(c, tr, n - 1, i);
    } else {
      AsksOnlyWhenCleared(c, tr, n - 1, i);
      k := n - 1;
    }
  }

  /** Request `q` was sent in step `m` by tourist `i`, which had been cleared for it. */
  ghost predicate SentCleared(tr: seq<State>, m: nat, q: nat, i: nat)
    requires m < |tr| - 1
  {
    && |tr[m].p.sent| == q && |tr[m + 1].p.sent| == q + 1
    && tr[m + 1].p.sent[q].tourist == i && exists k :: ClearedAt(tr, k, m, i)
  }

  lemma SendingStep(c: Config, s: State, step: Step)
    requires ValidConfig(c) && Enabled(c, s, step)
    ensures var sent := Apply(c, s, step).p.sent;
            || sent == s.p.sent
            || (|sent| == |s.p.sent| + 1 && sent[..|s.p.sent|] == s.p.sent
                && Asking(s, sent[|s.p.sent|].tourist))
  {
  }

  /** Every request was sent by a tourist that, since it last came to the platform, read emergency_stop
      clear or was freed from waiting. */
  lemma {:induction false} EveryRequestIsCleared(c: Config, tr: seq<State>, n: nat, q: nat)
    requires ValidConfig(c) && Run(c, tr) && n < |tr| && q < |tr[n].p.sent|
    ensures exists m :: 0 <= m < n && SentCleared(tr, m, q, tr[n].p.sent[q].tourist)
    decreases n
  {
    assert n > 0;
    SendsAt(c, tr, n - 1);
    if q < |tr[n - 1].p.sent| {
      EveryRequestIsCleared(c, tr, n - 1, q);
    } else {
      NewRequestIsCleared(c, tr, n - 1);
    }
  }

  lemma SendsAt(c: Config, tr: seq<State>, n: nat)
    requires ValidConfig(c) && Run(c, tr) && n < |tr| - 1
    ensures var before, after := tr[n].p.sent, tr[n + 1].p.sent;
            || after == before
            || (|after| == |before| + 1 && after[..|before|] == before && Asking(tr[n], after[|before|].tourist))
  {
    var step := StepAt(c, tr, n);
    SendingStep(c, tr[n], step);
  }

  lemma NewRequestIsCleared(c: Config, tr: seq<State>, n: nat)
    requires ValidConfig(c) && Run(c, tr) && n < |tr| - 1 && |tr[n + 1].p.sent| == |tr[n].p.sent| + 1
    ensures SentCleared(tr, n, |tr[n].p.sent|, tr[n + 1].p.sent[|tr[n].p.sent|].tourist)
  {
    SendsAt(c, tr, n);
    var k := AskersAreCleared(c, tr, n, tr[n + 1].p.sent[|tr[n].p.sent|].tourist);
  }
}
