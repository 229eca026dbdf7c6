/** Every step of the pipeline keeps the seating order and the chair log. */
module BoardingSteps {
  import opened Pipeline
  import opened Boarding

  /** Where the buffered requests and the one in hand stand in the order of requests. */
  lemma Placement(s: State)
    requires Ordered(s)
    ensures Base(s) + |s.low.pending| + |Hand(s.low)| <= |s.sent|
    ensures s.low.pending == s.sent[Base(s)..Base(s) + |s.low.pending|]
    ensures Hand(s.low) != [] ==> Hand(s.low)[0] == s.sent[Base(s) + |s.low.pending|]
  {
    var p := s.low.pending;
    assert |Backlog(s)| == |s.sent| - Base(s);
    assert p == Backlog(s)[..|p|];
    assert Hand(s.low) != [] ==> Hand(s.low)[0] == Backlog(s)[|p|];
  }

  lemma EmptyOrdered(s: State)
    requires s.low == Lower(Loop, [], 0, 1) && s.queue == [] && s.sent == [] && s.confirmed == []
    ensures Ordered(s)
  {
    assert Backlog(s) == s.sent[0..];
    assert s.confirmed == s.sent[..0];
  }

  lemma EmptyPlatform(s: State)
    requires s.low == Lower(Loop, [], 0, 1) && s.queue == [] && s.sent == [] && s.confirmed == []
    requires s.requeues == [] && s.chairs == []
    ensures PlatformOk(s)
  {
    EmptyOrdered(s);
    assert s.low.number == ChairId(0);
  }

  lemma InitPlatform(c: Config)
    ensures PlatformOk(Init(c))
  {
    EmptyPlatform(Init(c));
  }

  // ----- a new request

  lemma SendRequestOrdered(s: State, i: nat)
    requires Ordered(s) && i < |s.ts|
    ensures Ordered(ApplySendRequest(s, i))
    ensures ApplySendRequest(s, i).sent[..|s.sent|] == s.sent
  {
    var s' := ApplySendRequest(s, i);
    var m := s'.queue[|s.queue|];
    OfTypeAppend(s.queue, m, 1);
    OfTypeAppend(s.queue, m, 2);
    assert Backlog(s') == Backlog(s) + [m.req];
    assert s'.sent[Base(s')..] == s.sent[Base(s)..] + [m.req];
  }

  lemma ChairsKeepStretch(sent: seq<Req>, r: Req, chairs: seq<Chair>, k: nat)
    requires k < |chairs| && 0 <= Covered(chairs[..k]) && ChairOk(sent, chairs, k)
    ensures ChairOk(sent + [r], chairs, k)
  {
    var c := chairs[k];
    assert (sent + [r])[c.first..c.first + c.size] == sent[c.first..c.first + c.size];
  }

  lemma SendRequestLoads(s: State, i: nat)
    requires PlatformOk(s) && i < |s.ts| && 1 <= s.ts[i].party.chairSlots <= 3
    ensures Seated(ApplySendRequest(s, i)) && RequeuedOnce(ApplySendRequest(s, i))
  {
    Placement(s);
  }

  lemma SendRequestPlatform(s: State, i: nat)
    requires PlatformOk(s) && i < |s.ts| && 1 <= s.ts[i].party.chairSlots <= 3
    ensures PlatformOk(ApplySendRequest(s, i))
  {
    var s' := ApplySendRequest(s, i);
    SendRequestOrdered(s, i);
    SendRequestLoads(s, i);
    forall k | 0 <= k < |s.chairs| ensures ChairOk(s'.sent, s'.chairs, k) {
      ChairsKeepStretch(s.sent, s'.sent[|s.sent|], s.chairs, k);
    }
  }

  // ----- taking and putting back

  lemma ReceiveKeepsBacklog(s: State)
    requires s.low.pc.Loop? && NextMessage(s.queue) < |s.queue|
    ensures Backlog(ApplyReceive(s)) == Backlog(s)
  {
    var p, r, q, rest := s.low.pending, s.queue[NextMessage(s.queue)].req, s.queue, ApplyReceive(s).queue;
    ReceiveTakesFront(q);
    Regroup(p, [], OfType(q, 1), OfType(q, 2));
    Regroup(p, [r], OfType(rest, 1), OfType(rest, 2));
    assert p + [] == p;
  }

  lemma Regroup<T>(a: seq<T>, b: seq<T>, c: seq<T>, d: seq<T>)
    ensures a + b + c + d == a + (b + (c + d))
    ensures b == [] ==> a + b + c + d == a + (c + d)
  {
  }

  lemma RemovingKeepsTypes(q: seq<PlatformMsg>, n: nat)
    requires n < |q| && forall m | 0 <= m < |q| :: q[m].mtype == 1 || q[m].mtype == 2
    ensures forall m | 0 <= m < |q| - 1 :: RemoveAt(q, n)[m].mtype == 1 || RemoveAt(q, n)[m].mtype == 2
  {
    assert forall m | 0 <= m < |q| - 1 :: RemoveAt(q, n)[m] == q[if m < n then m else m + 1];
  }

  lemma ReceiveFillsHand(s: State)
    requires Ordered(s) && s.low.pc.Loop? && NextMessage(s.queue) < |s.queue|
    ensures |Hand(ApplyReceive(s).low)| + |OfType(ApplyReceive(s).queue, 1)| <= 1
  {
    ReceiveTakesFront(s.queue);
  }

  lemma ReceiveOrdered(s: State)
    requires Ordered(s) && s.low.pc.Loop? && NextMessage(s.queue) < |s.queue|
    ensures Ordered(ApplyReceive(s))
  {
    ReceiveKeepsBacklog(s);
    ReceiveFillsHand(s);
    RemovingKeepsTypes(s.queue, NextMessage(s.queue));
    assert Base(ApplyReceive(s)) == Base(s);
  }

  lemma ReceivePlatform(s: State)
    requires PlatformOk(s) && s.low.pc.Loop? && NextMessage(s.queue) < |s.queue|
    ensures PlatformOk(ApplyReceive(s))
  {
    ReceiveOrdered(s);
  }

  lemma RequeuePlatform(s: State)
    requires PlatformOk(s) && s.low.pc.PutBack?
    ensures PlatformOk(s.(queue := s.queue + [PlatformMsg(1, s.low.pc.req)], low := s.low.(pc := Loop)))
  {
    var m := PlatformMsg(1, s.low.pc.req);
    var s' := s.(queue := s.queue + [m], low := s.low.(pc := Loop));
    OfTypeAppend(s.queue, m, 1);
    OfTypeAppend(s.queue, m, 2);
    assert Backlog(s') == Backlog(s);
  }

  // ----- deciding

  lemma BufferLoads(s: State)
    requires Ordered(s) && Seated(s) && s.low.pc.InHand? && FitsOn(s.low, s.low.pc.req)
    ensures ApplyDecide(s, false).low.pending == s.low.pending + [s.low.pc.req]
    ensures ApplyDecide(s, false).low.slots == SlotSum(s.low.pending + [s.low.pc.req])
  {
    Placement(s);
    SlotSumAppend(s.low.pending, s.low.pc.req);
    assert FitsChair(s.low.pending);
    SlotSumBounds(s.low.pending);
  }

  lemma BufferOrdered(s: State)
    requires Ordered(s) && Seated(s) && s.low.pc.InHand? && FitsOn(s.low, s.low.pc.req)
    ensures Ordered(ApplyDecide(s, false))
  {
    var s' := ApplyDecide(s, false);
    BufferLoads(s);
    assert Hand(s'.low) == [];
    assert Backlog(s') == Backlog(s);
  }

  lemma BufferPlatform(s: State)
    requires PlatformOk(s) && s.low.pc.InHand? && FitsOn(s.low, s.low.pc.req)
    ensures PlatformOk(ApplyDecide(s, false))
  {
    BufferOrdered(s);
    BufferLoads(s);
    Placement(s);
  }

  lemma NoRoomOrdered(s: State)
    requires Ordered(s) && s.low.pc.InHand? && !FitsOn(s.low, s.low.pc.req) && s.low.pending != []
    ensures Ordered(ApplyDecide(s, false))
  {
    assert Backlog(ApplyDecide(s, false)) == Backlog(s);
  }

  lemma NoRoomLeaves(s: State)
    requires PlatformOk(s) && s.low.pc.InHand? && !FitsOn(s.low, s.low.pc.req) && s.low.pending != []
    ensures Seated(ApplyDecide(s, false)) && Departures(ApplyDecide(s, false))
  {
  }

  /** A request that does not fit finds somebody on the chair. */
  lemma NoRoomMeansLoaded(s: State)
    requires PlatformOk(s) && s.low.pc.InHand? && !FitsOn(s.low, s.low.pc.req)
    ensures s.low.pending != []
    ensures s.low.pc.req == s.sent[Base(s) + |s.low.pending|]
  {
    Placement(s);
    assert Hand(s.low) == [s.low.pc.req];
  }

  lemma NoRoomRequeues(s: State)
    requires PlatformOk(s) && s.low.pc.InHand? && !FitsOn(s.low, s.low.pc.req) && s.low.pending != []
    requires Base(s) + |s.low.pending| < |s.sent| && s.low.pc.req == s.sent[Base(s) + |s.low.pending|]
    ensures RequeuedOnce(ApplyDecide(s, false))
  {
  }

  lemma NoRoomPlatform(s: State)
    requires PlatformOk(s) && s.low.pc.InHand? && !FitsOn(s.low, s.low.pc.req)
    ensures PlatformOk(ApplyDecide(s, false))
    ensures s.low.pending != []
  {
    Placement(s);
    NoRoomMeansLoaded(s);
    NoRoomOrdered(s);
    NoRoomLeaves(s);
    NoRoomRequeues(s);
  }

  lemma DecidePlatform(s: State, emergency: bool)
    requires PlatformOk(s) && s.low.pc.InHand?
    ensures PlatformOk(ApplyDecide(s, emergency))
  {
    if emergency {
      assert Backlog(ApplyDecide(s, true)) == Backlog(s);
    } else if !FitsOn(s.low, s.low.pc.req) {
      NoRoomPlatform(s);
    } else {
      BufferPlatform(s);
    }
  }

  // ----- departing

  lemma DepartOrdered(s: State, now: int)
    requires Ordered(s) && Seated(s) && RequeuedOnce(s) && s.low.pc.Departing?
    ensures Ordered(ApplyDepart(s, now)) && Seated(ApplyDepart(s, now)) && RequeuedOnce(ApplyDepart(s, now))
  {
    assert Backlog(ApplyDepart(s, now)) == Backlog(s);
  }

  /** The chair that leaves takes the stretch of requests after those of the chairs before it. */
  lemma DepartingChairOk(s: State, now: int)
    requires PlatformOk(s) && s.low.pc.Departing?
    ensures ChairOk(s.sent, ApplyDepart(s, now).chairs, |s.chairs|)
  {
    Placement(s);
    assert ApplyDepart(s, now).chairs[..|s.chairs|] == s.chairs;
  }

  lemma ChairStaysOk(sent: seq<Req>, chairs: seq<Chair>, more: seq<Chair>, k: nat)
    requires k < |chairs| && ChairOk(sent, chairs, k)
    ensures ChairOk(sent, chairs + more, k)
  {
    assert (chairs + more)[..k] == chairs[..k];
  }

  lemma DepartDepartures(s: State, now: int)
    requires PlatformOk(s) && s.low.pc.Departing?
    ensures Departures(ApplyDepart(s, now))
  {
    var s' := ApplyDepart(s, now);
    forall k | 0 <= k < |s'.chairs| ensures ChairOk(s'.sent, s'.chairs, k) {
      if k < |s.chairs| {
        ChairStaysOk(s.sent, s.chairs, s'.chairs[|s.chairs|..], k);
      } else {
        DepartingChairOk(s, now);
      }
    }
  }

  lemma DepartPlatform(s: State, now: int)
    requires PlatformOk(s) && s.low.pc.Departing?
    ensures PlatformOk(ApplyDepart(s, now))
  {
    DepartOrdered(s, now);
    DepartDepartures(s, now);
  }

  lemma ConfirmKeepsBacklog(s: State)
    requires s.low.pc.Confirming? && s.low.pc.next < |s.low.pending|
    ensures ApplyConfirm(s).low.pc.Confirming? ==> Backlog(ApplyConfirm(s)) == Backlog(s)
    ensures !ApplyConfirm(s).low.pc.Confirming? ==> Backlog(s) == s.low.pending + Backlog(ApplyConfirm(s))
  {
    var s' := ApplyConfirm(s);
    assert Hand(s'.low) == Hand(s.low);
    var one, two := OfType(s.queue, 1), OfType(s.queue, 2);
    Regroup(s.low.pending, Hand(s.low), one, two);
    Regroup(s'.low.pending, Hand(s.low), one, two);
    assert [] + (Hand(s.low) + (one + two)) == Hand(s.low) + (one + two);
  }

  lemma ConfirmOrdered(s: State)
    requires Ordered(s) && s.low.pc.Confirming?
    ensures Ordered(ApplyConfirm(s))
    ensures s.low.pending[s.low.pc.next] == s.sent[|s.confirmed|]
    ensures ApplyConfirm(s).low.pc.Confirming? ==> Base(ApplyConfirm(s)) == Base(s)
    ensures !ApplyConfirm(s).low.pc.Confirming? ==> Base(ApplyConfirm(s)) == Base(s) + |s.low.pending|
  {
    var s', p, base := ApplyConfirm(s), s.low.pending, Base(s);
    Placement(s);
    assert p[s.low.pc.next] == s.sent[|s.confirmed|];
    assert s'.confirmed == s.sent[..|s.confirmed| + 1];
    ConfirmKeepsBacklog(s);
    if !s'.low.pc.Confirming? {
      Suffix(s.sent, base, p, Backlog(s'));
    }
  }

  lemma Suffix<T>(all: seq<T>, base: nat, p: seq<T>, rest: seq<T>)
    requires base <= |all| && all[base..] == p + rest
    ensures base + |p| <= |all| && rest == all[base + |p|..]
  {
    assert |all| - base == |p| + |rest|;
    assert forall n | 0 <= n < |rest| :: rest[n] == (p + rest)[|p| + n] == all[base..][|p| + n];
  }

  lemma NextChairId(k: nat)
    ensures NextNumber(ChairId(k)) == ChairId(k + 1)
  {
  }

  lemma ConfirmDepartures(s: State)
    requires PlatformOk(s) && s.low.pc.Confirming?
    ensures Departures(ApplyConfirm(s))
  {
    var s' := ApplyConfirm(s);
    ConfirmOrdered(s);
    NextChairId(|s.chairs| - 1);
    forall k | 0 <= k < |s'.chairs| ensures ChairOk(s'.sent, s'.chairs, k) {
      assert ChairOk(s.sent, s.chairs, k);
    }
  }

  lemma ConfirmRequeues(s: State)
    requires PlatformOk(s) && s.low.pc.Confirming?
    ensures RequeuedOnce(ApplyConfirm(s))
  {
    ConfirmOrdered(s);
    Placement(s);
  }

  lemma ConfirmPlatform(s: State)
    requires PlatformOk(s) && s.low.pc.Confirming?
    ensures PlatformOk(ApplyConfirm(s))
  {
    ConfirmOrdered(s);
    ConfirmDepartures(s);
    ConfirmRequeues(s);
  }

  // ----- everything else

  /** A step elsewhere leaves the platform alone, but for counting arrivals into chairs. */
  ghost predicate PlatformUntouched(s: State, s': State) {
    && s'.queue == s.queue && s'.low == s.low && s'.sent == s.sent && s'.confirmed == s.confirmed
    && s'.requeues == s.requeues && |s'.chairs| == |s.chairs|
    && forall k | 0 <= k < |s.chairs| :: s'.chairs[k] == s.chairs[k].(counted := s'.chairs[k].counted)
  }

  lemma UntouchedPlatform(s: State, s': State)
    requires PlatformOk(s) && PlatformUntouched(s, s')
    ensures PlatformOk(s')
  {
    assert Backlog(s') == Backlog(s);
    forall k | 0 <= k < |s'.chairs| ensures ChairOk(s'.sent, s'.chairs, k) {
      assert ChairOk(s.sent, s.chairs, k);
    }
  }

  lemma InterruptPlatform(s: State)
    requires PlatformOk(s) && s.low.pc.Loop? && s.low.pending != []
    ensures PlatformOk(s.(low := s.low.(pc := Departing(Interrupted))))
  {
    assert Backlog(s.(low := s.low.(pc := Departing(Interrupted)))) == Backlog(s);
  }

  lemma StepPlatform(c: Config, s: State, step: Step)
    requires PlatformOk(s) && Enabled(c, s, step)
    requires forall i | 0 <= i < |s.ts| :: 1 <= s.ts[i].party.chairSlots <= 3
    ensures PlatformOk(Apply(c, s, step))
  {
    match step
    case SendRequest(i) => SendRequestPlatform(s, i);
    case Receive => ReceivePlatform(s);
    case Interrupt => InterruptPlatform(s);
    case Decide(emergency) => DecidePlatform(s, emergency);
    case Requeue => RequeuePlatform(s);
    case Depart(now) => DepartPlatform(s, now);
    case Confirm => ConfirmPlatform(s);
    case _ => UntouchedPlatform(s, Apply(c, s, step));
  }
}
