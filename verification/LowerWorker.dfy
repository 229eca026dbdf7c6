/**
 The lower worker's own code: the buffer of pending parties, the slots and the number of the
 chair being loaded, and the body of its loop from a received request to the next one. Each
 method is proved against the steps the worker takes in the pipeline.
 */
module LowerWorker {
  import opened Constants
  import opened Pipeline

  // ----- the steps of the pipeline, taken back to back

  /** What serving leaves behind: the worker, the confirmations sent and the requests put back. */
  datatype Served = Served(worker: Lower, out: seq<BoardingMsg>, back: seq<PlatformMsg>)

  function Confirmations(l: Lower, n: nat, departure: int): seq<BoardingMsg>
    requires n <= |l.pending|
  {
    seq(n, i requires 0 <= i < n => Confirmation(l, i, departure))
  }

  /** The chair leaves: everyone pending is confirmed, and the next chair is empty. */
  function Dispatched(l: Lower, cause: Cause, departure: int): Served {
    Served(Reloaded(l, cause), Confirmations(l, |l.pending|, departure), [])
  }

  /** A worker about to put a request back does so. */
  function Settled(o: Served): Served {
    match o.worker.pc
    case PutBack(r) => Served(o.worker.(pc := Loop), o.out, o.back + [PlatformMsg(1, r)])
    case _ => o
  }

  /** A request in hand is served completely. */
  function ServedRequest(l: Lower, r: Req, emergency: bool, departure: int): Served {
    var d := Decided(l, r, emergency);
    Settled(if d.pc.Departing? then Dispatched(d, d.pc.cause, departure) else Served(d, [], []))
  }

  /** Everyone in `told` is told of the chair with this number, in turn. */
  ghost predicate TellsAll(out: seq<BoardingMsg>, told: seq<Req>, number: int, departure: int) {
    && |out| == |told|
    && forall i | 0 <= i < |told| ::
         out[i] == BoardingMsg(told[i].serial, told[i].tourist, number, |told|, departure)
  }

  /** The number after this one. */
  function Following(number: int): int {
    number % 72 + 1
  }

  /** What is to become of a request, by emergency_stop and the room on the chair. */
  lemma ServedRequestMeans(l: Lower, r: Req, emergency: bool, departure: int)
    requires l.pc.Loop? && |l.pending| < 4
    ensures var o, all := ServedRequest(l, r, emergency, departure), l.pending + [r];
            if emergency then
              o == Served(l, [], [PlatformMsg(1, r)])
            else if l.slots + r.slots > 4 then
              && o.worker == Lower(Loop, [], 0, Following(l.number)) && o.back == [PlatformMsg(1, r)]
              && TellsAll(o.out, l.pending, l.number, departure)
            else if l.slots + r.slots == 4 then
              && o.worker == Lower(Loop, [], 0, Following(l.number)) && o.back == []
              && TellsAll(o.out, all, l.number, departure)
            else
              o == Served(Lower(Loop, all, l.slots + r.slots, l.number), [], [])
  {
    assert [] + [PlatformMsg(1, r)] == [PlatformMsg(1, r)];
  }

  function ServedInterrupt(l: Lower, departure: int): Served {
    if l.pending == [] then Served(l, [], []) else Dispatched(l, Interrupted, departure)
  }

  // ----- the worker as a process

  class Worker {
    const pending: array<Req>
    var pendingCount: nat
    var currentChairSlots: int
    var chairNumber: int

    ghost predicate Valid()
      reads this
    {
      pending.Length == MAX_PENDING_PER_CHAIR && pendingCount <= pending.Length
    }

    /** The worker at its loop, as the pipeline sees it. */
    function View(): Lower
      reads this, pending
      requires Valid()
    {
      Lower(Loop, pending[..pendingCount], currentChairSlots, chairNumber)
    }

    constructor ()
      ensures Valid() && fresh(pending)
      ensures View() == Lower(Loop, [], 0, 1)
    {
      pending := new Req[MAX_PENDING_PER_CHAIR](_ => Req(0, 0, 0));
      pendingCount := 0;
      currentChairSlots := 0;
      chairNumber := 1;
    }

    /** dispatch_chair, once a chair permit is obtained. */
    method DispatchChair(departure: int) returns (out: seq<BoardingMsg>)
      requires Valid()
      modifies this`pendingCount
      ensures Valid()
      ensures View() == old(View()).(pending := [])
      ensures out == Confirmations(old(View()), |old(View()).pending|, departure)
    {
      out := [];
      if pendingCount == 0 { return; }
      var touristsOnChair := pendingCount;
      var i := 0;
      while i < pendingCount
        invariant 0 <= i <= pendingCount
        invariant out == Confirmations(View(), i, departure)
      {
        out := out + [BoardingMsg(pending[i].serial, pending[i].tourist, chairNumber, touristsOnChair, departure)];
        i := i + 1;
      }
      pendingCount := 0;
    }

    /** An interrupted msgrcv sends off what is pending. */
    method OnInterrupt(departure: int) returns (out: seq<BoardingMsg>)
      requires Valid()
      modifies this
      ensures Valid()
      ensures Served(View(), out, []) == ServedInterrupt(old(View()), departure)
      ensures TellsAll(out, old(View()).pending, old(chairNumber), departure)
      ensures old(pendingCount) > 0 ==> View() == Lower(Loop, [], 0, Following(old(chairNumber)))
      ensures old(pendingCount) == 0 ==> View() == old(View())
    {
      out := [];
      if pendingCount > 0 {
        out := DispatchChair(departure);
        currentChairSlots := 0;
        chairNumber := chairNumber % TOTAL_CHAIRS + 1;
      }
    }

    /** A received request is put back in an emergency or for lack of room, or else buffered;
        the chair leaves when the request does not fit or has filled it. */
    method OnRequest(r: Req, emergency: bool, departure: int)
      returns (out: seq<BoardingMsg>, back: seq<PlatformMsg>)
      requires Valid()
      modifies this, pending
      ensures Valid()
      ensures Served(View(), out, back) == ServedRequest(old(View()), r, emergency, departure)
      ensures emergency ==> View() == old(View()) && out == [] && back == [PlatformMsg(1, r)]
      ensures !emergency && old(currentChairSlots) + r.slots > 4 ==>
                && View() == Lower(Loop, [], 0, Following(old(chairNumber))) && back == [PlatformMsg(1, r)]
                && TellsAll(out, old(View()).pending, old(chairNumber), departure)
      ensures !emergency && old(pendingCount) < 4 && old(currentChairSlots) + r.slots == 4 ==>
                && View() == Lower(Loop, [], 0, Following(old(chairNumber))) && back == []
                && TellsAll(out, old(View()).pending + [r], old(chairNumber), departure)
      ensures !emergency && old(pendingCount) < 4 && old(currentChairSlots) + r.slots < 4 ==>
                && View() == Lower(Loop, old(View()).pending + [r], old(currentChairSlots) + r.slots,
                                   old(chairNumber))
                && out == [] && back == []
    {
      out, back := [], [];
      if emergency {
        back := [PlatformMsg(1, r)];
        return;
      }
      if currentChairSlots + r.slots > CHAIR_CAPACITY {
        if pendingCount > 0 {
          out := DispatchChair(departure);
        }
        currentChairSlots := 0;
        chairNumber := chairNumber % TOTAL_CHAIRS + 1;
        back := [PlatformMsg(1, r)];
        return;
      }
      if pendingCount < MAX_PENDING_PER_CHAIR {
        pending[pendingCount] := r;
        pendingCount := pendingCount + 1;
      }
      currentChairSlots := currentChairSlots + r.slots;
      assert View().pending == Decided(old(View()), r, false).pending;
      if currentChairSlots >= CHAIR_CAPACITY {
        out := DispatchChair(departure);
        currentChairSlots := 0;
        chairNumber := chairNumber % TOTAL_CHAIRS + 1;
      }
    }
  }

  // ----- serving is a stretch of pipeline steps

  ghost predicate Feasible(c: Config, s: State, steps: seq<Step>)
    decreases |steps|
  {
    steps == [] || (Enabled(c, s, steps[0]) && Feasible(c, Apply(c, s, steps[0]), steps[1..]))
  }

  ghost function Result(c: Config, s: State, steps: seq<Step>): State
    requires Feasible(c, s, steps)
    decreases |steps|
  {
    if steps == [] then s else Result(c, Apply(c, s, steps[0]), steps[1..])
  }

  /** The confirmations still to send, and the request to put back after them. */
  function Confirms(n: nat, cause: Cause): seq<Step> {
    if n > 0 then [Confirm] + Confirms(n - 1, cause) else if cause.NoRoom? then [Requeue] else []
  }

  /** The part of the state that a stretch of the lower worker's steps leaves alone. */
  predicate Apart(s: State, t: State) {
    && t.ts == s.ts && t.free == s.free && t.count == s.count && t.sent == s.sent
    && t.arrivals == s.arrivals && t.up == s.up && t.returned == s.returned
  }

  /** From a state to a later one the worker sent `o.out`, put back `o.back` and told `told`. */
  predicate Leads(s: State, t: State, o: Served, told: seq<Req>) {
    && Apart(s, t)
    && t.low == o.worker && t.boarding == s.boarding + o.out && t.queue == s.queue + o.back
    && t.confirmed == s.confirmed + told
  }

  lemma PutBackLast(c: Config, s: State, cause: Cause)
    requires s.low.pc == if cause.NoRoom? then PutBack(cause.req) else Loop
    ensures Feasible(c, s, Confirms(0, cause))
    ensures Leads(s, Result(c, s, Confirms(0, cause)), Settled(Served(s.low, [], [])), [])
    ensures Result(c, s, Confirms(0, cause)).permits == s.permits
  {
    if cause.NoRoom? {
      assert Confirms(0, cause)[1..] == [];
    }
  }

  /** The remaining confirmations go out one by one, to each pending request in its turn, and
      then a request that did not fit is put back. */
  lemma {:induction false} ConfirmsInTurn(c: Config, s: State, left: nat)
    requires s.low.pc.Confirming? && 0 < left == |s.low.pending| - s.low.pc.next
    ensures Feasible(c, s, Confirms(left, s.low.pc.cause))
    ensures var l, n := s.low, s.low.pc.next;
            var t := Result(c, s, Confirms(left, l.pc.cause));
            && Leads(s, t, Settled(Served(Reloaded(l, l.pc.cause),
                                          Confirmations(l, |l.pending|, l.pc.departure)[n..], [])),
                     l.pending[n..])
            && t.permits == s.permits
    decreases left
  {
    var l, n, t := s.low, s.low.pc.next, ApplyConfirm(s);
    var all := Confirmations(l, |l.pending|, l.pc.departure);
    assert Confirms(left, l.pc.cause)[1..] == Confirms(left - 1, l.pc.cause);
    assert all[n..] == [Confirmation(l, n, l.pc.departure)] + all[n + 1..];
    assert l.pending[n..] == [l.pending[n]] + l.pending[n + 1..];
    if left > 1 {
      ConfirmsInTurn(c, t, left - 1);
      assert Confirmations(t.low, |l.pending|, l.pc.departure) == all;
    } else {
      PutBackLast(c, t, l.pc.cause);
      assert all[n + 1..] == [] && l.pending[n + 1..] == [];
    }
  }

  /** A departing chair: the permit is taken and everyone pending confirmed. */
  lemma DepartureIsSteps(c: Config, s: State, now: int)
    requires s.low.pc.Departing? && s.low.pending != [] && s.permits >= 1
    ensures var l, steps := s.low, [Depart(now)] + Confirms(|s.low.pending|, s.low.pc.cause);
            && Feasible(c, s, steps)
            && var t := Result(c, s, steps);
               Leads(s, t, Settled(Dispatched(l, l.pc.cause, now)), l.pending) && t.permits == s.permits - 1
  {
    var rest, t := Confirms(|s.low.pending|, s.low.pc.cause), ApplyDepart(s, now);
    assert ([Depart(now)] + rest)[1..] == rest;
    ConfirmsInTurn(c, t, |s.low.pending|);
    assert Confirmations(t.low, |s.low.pending|, now) == Confirmations(s.low, |s.low.pending|, now);
  }

  /** Serving the request in hand, as the worker's own code does it, is a stretch of steps of the
      pipeline: decide; for a chair that leaves, take a permit and confirm everyone pending in
      turn; put back what is to be put back. */
  lemma ServingIsSteps(c: Config, s: State, emergency: bool, now: int) returns (steps: seq<Step>)
    requires s.low.pc.InHand? && s.permits >= 1 && (emergency ==> c.danger)
    ensures Feasible(c, s, steps)
    ensures var d := Decided(s.low, s.low.pc.req, emergency);
            Leads(s, Result(c, s, steps), ServedRequest(s.low.(pc := Loop), s.low.pc.req, emergency, now),
                  if d.pc.Departing? then d.pending else [])
    ensures emergency ==> Leads(s, Result(c, s, steps),
                                Served(s.low.(pc := Loop), [], [PlatformMsg(1, s.low.pc.req)]), [])
  {
    var d, u := Decided(s.low, s.low.pc.req, emergency), ApplyDecide(s, emergency);
    var rest := match d.pc
      case Departing(cause) => [Depart(now)] + Confirms(|d.pending|, cause)
      case PutBack(_) => [Requeue]
      case _ => [];
    if d.pc.Departing? {
      DepartureIsSteps(c, u, now);
    } else {
      assert [Requeue][1..] == [];
    }
    steps := [Decide(emergency)] + rest;
    assert steps[1..] == rest;
  }

  /** So is what follows an interrupted receive. */
  lemma InterruptIsSteps(c: Config, s: State, now: int) returns (steps: seq<Step>)
    requires s.low.pc.Loop? && s.permits >= 1
    ensures Feasible(c, s, steps)
    ensures Leads(s, Result(c, s, steps), ServedInterrupt(s.low, now), s.low.pending)
  {
    steps := [];
    if s.low.pending != [] {
      var u := Apply(c, s, Interrupt);
      DepartureIsSteps(c, u, now);
      steps := [Interrupt] + ([Depart(now)] + Confirms(|s.low.pending|, Interrupted));
      assert steps[1..] == [Depart(now)] + Confirms(|s.low.pending|, Interrupted);
    }
  }
}
