/**
 The lower platform: requests are seated in the order they were sent, whatever is put back,
 and the chair being loaded is described exactly by the requests it will carry.
 */
module Boarding {
  import opened Constants
  import opened Pipeline

  // ----- the order of requests

  /** The request the lower worker has taken from the queue and not yet seated or put back. */
  function Hand(l: Lower): seq<Req> {
    match l.pc
    case InHand(r) => [r]
    case PutBack(r) => [r]
    case Departing(NoRoom(r)) => [r]
    case Confirming(NoRoom(r), _, _) => [r]
    case _ => []
  }

  function Sending(l: Lower): nat {
    if l.pc.Confirming? then l.pc.next else 0
  }

  /** Requests not yet on a chair that has left, in the order they will be seated: the chair
      being loaded, the request in hand, then the queue as msgrcv will serve it. */
  function Backlog(s: State): seq<Req> {
    s.low.pending + Hand(s.low) + OfType(s.queue, 1) + OfType(s.queue, 2)
  }

  /** Serial number of the first request of the chair being loaded. */
  function Base(s: State): int {
    |s.confirmed| - Sending(s.low)
  }

  ghost predicate Ordered(s: State) {
    && 0 <= Base(s) <= |s.confirmed| <= |s.sent|
    && s.confirmed == s.sent[..|s.confirmed|]
    && Backlog(s) == s.sent[Base(s)..]
    && (forall q | 0 <= q < |s.sent| :: s.sent[q].serial == q)
    && (forall n | 0 <= n < |s.queue| :: s.queue[n].mtype == 1 || s.queue[n].mtype == 2)
    && |Hand(s.low)| + |OfType(s.queue, 1)| <= 1
    && (s.low.pc.Confirming? ==> s.low.pc.next < |s.low.pending|)
    && (s.low.pc.Departing? ==> s.low.pending != [])
  }

  // ----- the chair being loaded

  function SlotSum(rs: seq<Req>): int {
    if rs == [] then 0 else rs[0].slots + SlotSum(rs[1..])
  }

  ghost predicate FitsChair(rs: seq<Req>) {
    forall n | 0 <= n < |rs| :: 1 <= rs[n].slots <= 3
  }

  function CauseOf(l: Lower): Option<Cause> {
    match l.pc
    case Departing(cause) => Some(cause)
    case Confirming(cause, _, _) => Some(cause)
    case _ => None
  }

  /** What a departure for this cause says about the slots taken and the request after them. */
  ghost predicate Justified(cause: Cause, slots: int) {
    match cause
    case Interrupted => true
    case Full => slots == CHAIR_CAPACITY
    case NoRoom(r) => slots + r.slots > CHAIR_CAPACITY
  }

  ghost predicate Seated(s: State) {
    && FitsChair(s.sent)
    && s.low.slots == SlotSum(s.low.pending) <= CHAIR_CAPACITY
    && (if CauseOf(s.low).Some? then Justified(CauseOf(s.low).value, s.low.slots)
        else s.low.slots < CHAIR_CAPACITY)
  }

  /** Each request is put back for lack of room at most once: from then on it is the next one
      to be seated, on an empty chair. */
  ghost predicate RequeuedOnce(s: State) {
    && |s.requeues| == |s.sent|
    && forall q | 0 <= q < |s.sent| ::
         && s.requeues[q] <= 1
         && (s.requeues[q] == 1 && q >= Base(s) + |s.low.pending| ==>
               && q == Base(s) + |s.low.pending|
               && (s.low.pending == [] || CauseOf(s.low) == Some(NoRoom(s.sent[q]))))
  }

  // ----- the chairs that left

  function Covered(chairs: seq<Chair>): int {
    if chairs == [] then 0 else chairs[|chairs| - 1].first + chairs[|chairs| - 1].size
  }

  /** The k-th chair took the requests that follow those of the chairs before it. */
  ghost predicate ChairOk(sent: seq<Req>, chairs: seq<Chair>, k: nat)
    requires k < |chairs|
  {
    var c := chairs[k];
    && c.first == Covered(chairs[..k])
    && c.size >= 1 && c.first + c.size <= |sent|
    && c.slots == SlotSum(sent[c.first..c.first + c.size]) <= CHAIR_CAPACITY
    && Justified(c.cause, c.slots)
    && (c.cause.NoRoom? ==> c.first + c.size < |sent| && c.cause.req == sent[c.first + c.size])
  }

  ghost predicate Departures(s: State) {
    && (forall k | 0 <= k < |s.chairs| :: ChairOk(s.sent, s.chairs, k))
    && (s.low.pc.Confirming? ==>
          && s.chairs != []
          && var last := s.chairs[|s.chairs| - 1];
             last.first == Base(s) && last.size == |s.low.pending| && last.departure == s.low.pc.departure)
    && (!s.low.pc.Confirming? ==> Covered(s.chairs) == Base(s))
    && s.low.number == ChairId(if s.low.pc.Confirming? then |s.chairs| - 1 else |s.chairs|)
  }

  ghost predicate PlatformOk(s: State) {
    Ordered(s) && Seated(s) && RequeuedOnce(s) && Departures(s)
  }

  // ----- the platform queue

  lemma Associative<T>(a: seq<T>, b: seq<T>, c: seq<T>)
    ensures (a + b) + c == a + (b + c)
  {
  }

  lemma {:induction false} OfTypeAppend(q: seq<PlatformMsg>, m: PlatformMsg, mtype: int)
    ensures OfType(q + [m], mtype) == OfType(q, mtype) + (if m.mtype == mtype then [m.req] else [])
  {
    if q == [] {
      assert [] + [m] == [m];
    } else {
      assert (q + [m])[1..] == q[1..] + [m] && (q + [m])[0] == q[0];
      OfTypeAppend(q[1..], m, mtype);
      Associative(if q[0].mtype == mtype then [q[0].req] else [], OfType(q[1..], mtype),
                  if m.mtype == mtype then [m.req] else []);
    }
  }

  lemma {:induction false} OfTypeRemove(q: seq<PlatformMsg>, i: nat, mtype: int)
    requires i < |q| && i == FirstOf(q, q[i].mtype)
    ensures q[i].mtype == mtype ==> OfType(q, mtype) == [q[i].req] + OfType(RemoveAt(q, i), mtype)
    ensures q[i].mtype != mtype ==> OfType(q, mtype) == OfType(RemoveAt(q, i), mtype)
  {
    if i == 0 {
      assert RemoveAt(q, 0) == q[1..];
    } else {
      assert RemoveAt(q, i)[1..] == RemoveAt(q[1..], i - 1);
      assert RemoveAt(q, i)[0] == q[0];
      OfTypeRemove(q[1..], i - 1, mtype);
    }
  }

  lemma {:induction false} NoneOfType(q: seq<PlatformMsg>, mtype: int)
    ensures OfType(q, mtype) == [] <==> FirstOf(q, mtype) == |q|
  {
    if q != [] {
      NoneOfType(q[1..], mtype);
    }
  }

  /** msgrcv hands out the front of the queue in seating order. */
  lemma ReceiveTakesFront(q: seq<PlatformMsg>)
    requires NextMessage(q) < |q|
    ensures var r, rest := q[NextMessage(q)].req, RemoveAt(q, NextMessage(q));
            && OfType(q, 1) + OfType(q, 2) == [r] + (OfType(rest, 1) + OfType(rest, 2))
            && |OfType(rest, 1)| == if OfType(q, 1) == [] then 0 else |OfType(q, 1)| - 1
  {
    var n := NextMessage(q);
    NoneOfType(q, 1);
    OfTypeRemove(q, n, 1);
    OfTypeRemove(q, n, 2);
  }

  lemma {:induction false} SlotSumAppend(rs: seq<Req>, r: Req)
    ensures SlotSum(rs + [r]) == SlotSum(rs) + r.slots
  {
    if rs == [] {
      assert [] + [r] == [r];
    } else {
      assert (rs + [r])[1..] == rs[1..] + [r];
      SlotSumAppend(rs[1..], r);
    }
  }

  lemma {:induction false} SlotSumBounds(rs: seq<Req>)
    requires FitsChair(rs)
    ensures |rs| <= SlotSum(rs)
    ensures rs != [] ==> rs[0].slots <= SlotSum(rs)
  {
    if rs != [] {
      SlotSumBounds(rs[1..]);
    }
  }
}
