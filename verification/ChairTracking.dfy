/**
 The upper worker's table of partially arrived chairs.

 Three views of one table: `ChairTable` is the fixed array with its count, updated in place;
 `Track` is what one arrival does to the used part of that array; `TrackInMap` is what the
 arrival means for a map from chair id to progress.
 */
module ChairTracking {
  import opened Constants

  datatype Tracker = Tracker(id: int, expected: int, arrived: int)

  datatype Progress = Progress(expected: int, arrived: int)

  /** The table after one arrival, and whether that arrival returns a chair permit. */
  datatype Outcome<+T> = Outcome(table: T, posted: bool)

  /** One arrival message: the chair it came on and the number of parties on that chair. */
  datatype Arrival = Arrival(id: int, heads: int)

  // ----- the used part of the array

  /** Index of the first tracker of a chair, or the length when there is none. */
  function Find(ts: seq<Tracker>, id: int): (i: nat)
    ensures i <= |ts|
    ensures i < |ts| ==> ts[i].id == id
    ensures forall j | 0 <= j < i :: ts[j].id != id
  {
    if ts == [] || ts[0].id == id then 0 else 1 + Find(ts[1..], id)
  }

  function SwapAndPop(ts: seq<Tracker>, i: nat): seq<Tracker>
    requires i < |ts|
  {
    ts[i := ts[|ts| - 1]][..|ts| - 1]
  }

  /** The table once the arriving chair has an entry, if the array has room for one. */
  function Lookup(ts: seq<Tracker>, a: Arrival): seq<Tracker> {
    if Find(ts, a.id) < |ts| || |ts| >= MAX_ACTIVE_CHAIRS then ts else ts + [Tracker(a.id, a.heads, 0)]
  }

  /** Counts one party in, and drops the entry when the chair is complete. */
  function Advance(ts: seq<Tracker>, i: nat): Outcome<seq<Tracker>>
    requires i < |ts|
  {
    var t := ts[i].(arrived := ts[i].arrived + 1);
    if t.arrived >= t.expected then
      Outcome(SwapAndPop(ts[i := t], i), true)
    else
      Outcome(ts[i := t], false)
  }

  function Track(ts: seq<Tracker>, a: Arrival): Outcome<seq<Tracker>> {
    var all, i := Lookup(ts, a), Find(ts, a.id);
    if i == |all| then Outcome(all, false) else Advance(all, i)
  }

  /** The table and the number of permits returned after a whole stream of arrivals. */
  function TrackAll(stream: seq<Arrival>): (seq<Tracker>, nat) {
    if stream == [] then
      ([], 0)
    else
      var (ts, n) := TrackAll(stream[..|stream| - 1]);
      var o := Track(ts, stream[|stream| - 1]);
      (o.table, if o.posted then n + 1 else n)
  }

  // ----- the map it stands for

  ghost function Ids(ts: seq<Tracker>): set<int> {
    set i | 0 <= i < |ts| :: ts[i].id
  }

  ghost function Contents(ts: seq<Tracker>): map<int, Progress> {
    map id | id in Ids(ts) :: Progress(ts[Find(ts, id)].expected, ts[Find(ts, id)].arrived)
  }

  function TrackInMap(m: map<int, Progress>, a: Arrival): Outcome<map<int, Progress>> {
    var p := if a.id in m then m[a.id] else Progress(a.heads, 0);
    if p.arrived + 1 >= p.expected then
      Outcome(m - {a.id}, true)
    else
      Outcome(m[a.id := p.(arrived := p.arrived + 1)], false)
  }

  function TrackAllInMap(stream: seq<Arrival>): (map<int, Progress>, nat) {
    if stream == [] then
      (map[], 0)
    else
      var (m, n) := TrackAllInMap(stream[..|stream| - 1]);
      var o := TrackInMap(m, stream[|stream| - 1]);
      (o.table, if o.posted then n + 1 else n)
  }

  /** Every arrival belongs to one of at most 64 chairs incomplete at that moment. */
  ghost predicate FitsTable(stream: seq<Arrival>) {
    forall n | 0 <= n < |stream| ::
      |TrackAllInMap(stream[..n]).0.Keys + {stream[n].id}| <= 64
  }

  ghost predicate Valid(ts: seq<Tracker>) {
    && |ts| <= MAX_ACTIVE_CHAIRS
    && NoDuplicates(ts)
    && (forall i | 0 <= i < |ts| :: 1 <= ts[i].arrived < ts[i].expected)
  }

  // ----- the array refines the map

  ghost predicate NoDuplicates(ts: seq<Tracker>) {
    forall i, j | 0 <= i < j < |ts| :: ts[i].id != ts[j].id
  }

  /** A map agrees with every entry and has no other key. */
  ghost predicate Represents(ts: seq<Tracker>, m: map<int, Progress>) {
    && (forall i | 0 <= i < |ts| :: ts[i].id in m && m[ts[i].id] == Progress(ts[i].expected, ts[i].arrived))
    && (forall id | id in m :: exists i :: 0 <= i < |ts| && ts[i].id == id)
  }

  lemma ContentsRepresent(ts: seq<Tracker>)
    requires NoDuplicates(ts)
    ensures Represents(ts, Contents(ts))
  {
    forall i | 0 <= i < |ts|
      ensures ts[i].id in Contents(ts) && Contents(ts)[ts[i].id] == Progress(ts[i].expected, ts[i].arrived)
    {
      assert ts[i].id in Ids(ts);
    }
  }

  lemma RepresentedIsContents(ts: seq<Tracker>, m: map<int, Progress>)
    requires NoDuplicates(ts) && Represents(ts, m)
    ensures Contents(ts) == m
  {
    ContentsRepresent(ts);
    var all := Contents(ts);
    assert forall id | id in all || id in m :: exists i :: 0 <= i < |ts| && ts[i].id == id;
  }

  lemma {:induction false} IdsCount(ts: seq<Tracker>)
    requires NoDuplicates(ts)
    ensures |Ids(ts)| == |ts|
  {
    if ts != [] {
      var front, last := ts[..|ts| - 1], ts[|ts| - 1].id;
      IdsCount(front);
      assert last !in Ids(front);
      assert Ids(ts) == Ids(front) + {last} by {
        assert forall i | 0 <= i < |front| :: ts[i] == front[i];
        assert last in Ids(ts);
      }
    }
  }

  lemma SwapAndPopRemoves(ts: seq<Tracker>, i: nat, m: map<int, Progress>)
    requires i < |ts| && NoDuplicates(ts) && Represents(ts, m)
    ensures NoDuplicates(SwapAndPop(ts, i)) && Represents(SwapAndPop(ts, i), m - {ts[i].id})
  {
    var rest, last := SwapAndPop(ts, i), |ts| - 1;
    forall id | id in m - {ts[i].id}
      ensures exists j :: 0 <= j < |rest| && rest[j].id == id
    {
      var j :| 0 <= j < |ts| && ts[j].id == id;
      assert rest[if j == last then i else j].id == id;
    }
  }

  lemma UpdateKeepsTheRest(ts: seq<Tracker>, i: nat, t: Tracker, m: map<int, Progress>)
    requires i < |ts| && NoDuplicates(ts) && Represents(ts, m) && t.id == ts[i].id
    ensures NoDuplicates(ts[i := t]) && Represents(ts[i := t], m[t.id := Progress(t.expected, t.arrived)])
  {
    var ts', m' := ts[i := t], m[t.id := Progress(t.expected, t.arrived)];
    forall id | id in m'
      ensures exists j :: 0 <= j < |ts'| && ts'[j].id == id
    {
      var j :| 0 <= j < |ts| && ts[j].id == id;
      assert ts'[j].id == id;
    }
  }

  lemma LookupAdds(ts: seq<Tracker>, a: Arrival, m: map<int, Progress>)
    requires NoDuplicates(ts) && Represents(ts, m)
    requires Find(ts, a.id) == |ts| < MAX_ACTIVE_CHAIRS
    ensures a.id !in m
    ensures NoDuplicates(Lookup(ts, a)) && Represents(Lookup(ts, a), m[a.id := Progress(a.heads, 0)])
  {
    var all, m' := Lookup(ts, a), m[a.id := Progress(a.heads, 0)];
    forall id | id in m'
      ensures exists j :: 0 <= j < |all| && all[j].id == id
    {
      if id == a.id {
        assert all[|ts|].id == id;
      } else {
        var j :| 0 <= j < |ts| && ts[j].id == id;
        assert all[j].id == id;
      }
    }
  }

  lemma UpdateAndRemove(ts: seq<Tracker>, i: nat, t: Tracker, m: map<int, Progress>)
    requires i < |ts| && NoDuplicates(ts) && Represents(ts, m) && t.id == ts[i].id
    ensures NoDuplicates(SwapAndPop(ts[i := t], i)) && Represents(SwapAndPop(ts[i := t], i), m - {t.id})
  {
    var m' := m[t.id := Progress(t.expected, t.arrived)];
    UpdateKeepsTheRest(ts, i, t, m);
    SwapAndPopRemoves(ts[i := t], i, m');
    assert m' - {t.id} == m - {t.id};
  }

  lemma MapAdvances(m: map<int, Progress>, a: Arrival, t: Tracker)
    requires a.id in m && m[a.id] == Progress(t.expected, t.arrived)
    ensures TrackInMap(m, a).posted == (t.arrived + 1 >= t.expected)
    ensures TrackInMap(m, a).table ==
              if t.arrived + 1 >= t.expected then m - {a.id} else m[a.id := Progress(t.expected, t.arrived + 1)]
  {
  }

  lemma AdvanceInMap(ts: seq<Tracker>, i: nat, a: Arrival, m: map<int, Progress>)
    requires i < |ts| && NoDuplicates(ts) && Represents(ts, m) && ts[i].id == a.id
    ensures NoDuplicates(Advance(ts, i).table)
    ensures Represents(Advance(ts, i).table, TrackInMap(m, a).table)
    ensures Advance(ts, i).posted == TrackInMap(m, a).posted
  {
    var t := ts[i].(arrived := ts[i].arrived + 1);
    MapAdvances(m, a, ts[i]);
    if t.arrived >= t.expected {
      UpdateAndRemove(ts, i, t, m);
    } else {
      UpdateKeepsTheRest(ts, i, t, m);
    }
  }

  /** An arrival whose chair has an entry, or room for one. */
  lemma TrackInTable(ts: seq<Tracker>, a: Arrival, m: map<int, Progress>)
    requires NoDuplicates(ts) && Represents(ts, m)
    requires Find(ts, a.id) < |ts| || |ts| < MAX_ACTIVE_CHAIRS
    ensures NoDuplicates(Track(ts, a).table)
    ensures Represents(Track(ts, a).table, TrackInMap(m, a).table)
    ensures Track(ts, a).posted == TrackInMap(m, a).posted
  {
    var i := Find(ts, a.id);
    if i < |ts| {
      assert Track(ts, a) == Advance(ts, i);
      AdvanceInMap(ts, i, a, m);
    } else {
      LookupAdds(ts, a, m);
      assert Track(ts, a) == Advance(Lookup(ts, a), i);
      var m' := m[a.id := Progress(a.heads, 0)];
      AdvanceInMap(Lookup(ts, a), i, a, m');
      assert TrackInMap(m', a) == TrackInMap(m, a) by {
        assert m' - {a.id} == m - {a.id};
        assert m'[a.id := Progress(a.heads, 1)] == m[a.id := Progress(a.heads, 1)];
      }
    }
  }

  lemma TrackKeepsValid(ts: seq<Tracker>, a: Arrival)
    requires Valid(ts) && a.heads >= 1
    ensures Valid(Track(ts, a).table)
  {
    var all, i := Lookup(ts, a), Find(ts, a.id);
    if i < |all| {
      assert Track(ts, a) == Advance(all, i);
      assert NoDuplicates(all);
      assert forall j | 0 <= j < |all| && j != i :: all[j] in ts;
    }
  }

  lemma IncompleteChairs(ts: seq<Tracker>, a: Arrival)
    requires Valid(ts)
    ensures |Contents(ts).Keys + {a.id}| <= MAX_ACTIVE_CHAIRS
            <==> Find(ts, a.id) < |ts| || |ts| < MAX_ACTIVE_CHAIRS
  {
    var keys := Contents(ts).Keys;
    IdsCount(ts);
    assert keys == Ids(ts);
    if Find(ts, a.id) < |ts| {
      assert ts[Find(ts, a.id)].id in keys;
      assert keys + {a.id} == keys;
    }
  }

  /** One arrival does to the map what the map semantics says exactly when the arriving chair
      is one of at most 64 incomplete ones. */
  lemma TrackRefinesMap(ts: seq<Tracker>, a: Arrival)
    requires Valid(ts)
    ensures (Contents(Track(ts, a).table) == TrackInMap(Contents(ts), a).table
             && Track(ts, a).posted == TrackInMap(Contents(ts), a).posted)
            <==> |Contents(ts).Keys + {a.id}| <= 64
  {
    IncompleteChairs(ts, a);
    if Find(ts, a.id) < |ts| || |ts| < MAX_ACTIVE_CHAIRS {
      ContentsRepresent(ts);
      TrackInTable(ts, a, Contents(ts));
      RepresentedIsContents(Track(ts, a).table, TrackInMap(Contents(ts), a).table);
    } else {
      assert a.id !in Contents(ts).Keys;
    }
  }

  /** Over any stream that fits, the array and the map agree, and return the same permits. */
  lemma {:induction false} StreamRefinesMap(stream: seq<Arrival>)
    requires FitsTable(stream)
    requires forall n | 0 <= n < |stream| :: stream[n].heads >= 1
    ensures Valid(TrackAll(stream).0)
    ensures Contents(TrackAll(stream).0) == TrackAllInMap(stream).0
    ensures TrackAll(stream).1 == TrackAllInMap(stream).1
  {
    if stream == [] {
      assert Contents([]) == map[];
    } else {
      var n := |stream| - 1;
      forall k | 0 <= k < n
        ensures |TrackAllInMap(stream[..n][..k]).0.Keys + {stream[..n][k].id}| <= MAX_ACTIVE_CHAIRS
      {
        assert stream[..n][..k] == stream[..k];
      }
      StreamRefinesMap(stream[..n]);
      TrackKeepsValid(TrackAll(stream[..n]).0, stream[n]);
      TrackRefinesMap(TrackAll(stream[..n]).0, stream[n]);
    }
  }

  // ----- two chairs under one id

  lemma AloneInTable(t: Tracker)
    ensures var t' := t.(arrived := t.arrived + 1);
            Advance([t], 0) == if t'.arrived >= t'.expected then Outcome([], true) else Outcome([t'], false)
  {
    var t' := t.(arrived := t.arrived + 1);
    assert [t][0 := t'] == [t'];
  }

  lemma {:induction false} RepeatedArrivals(a: Arrival, n: nat)
    requires 1 <= n < a.heads
    ensures TrackAll(seq(n, _ => a)) == ([Tracker(a.id, a.heads, n)], 0)
  {
    var stream := seq(n, _ => a);
    assert stream[..n - 1] == seq(n - 1, _ => a);
    AloneInTable(Tracker(a.id, a.heads, n - 1));
    if n == 1 {
      assert Lookup([], a) == [Tracker(a.id, a.heads, 0)];
    } else {
      RepeatedArrivals(a, n - 1);
      assert Find([Tracker(a.id, a.heads, n - 1)], a.id) == 0;
    }
  }

  /** When a second chair uses an id still in transit, the table cannot tell their passengers
      apart: with all but one party of the first chair counted, a single arrival of the second
      returns a permit, and the last arrival of the first returns none. */
  lemma SharedIdMisleads(id: int, heads: int, otherHeads: int)
    requires heads >= 2
    ensures var before := seq(heads - 1, _ => Arrival(id, heads)) + [Arrival(id, otherHeads)];
            && TrackAll(before) == ([], 1)
            && TrackAll(before + [Arrival(id, heads)]) == ([Tracker(id, heads, 1)], 1)
  {
    var first := seq(heads - 1, _ => Arrival(id, heads));
    var before := first + [Arrival(id, otherHeads)];
    RepeatedArrivals(Arrival(id, heads), heads - 1);
    assert before[..|before| - 1] == first;
    var all := before + [Arrival(id, heads)];
    assert all[..|all| - 1] == before;
    AloneInTable(Tracker(id, heads, heads - 1));
    assert Find([Tracker(id, heads, heads - 1)], id) == 0;
    AloneInTable(Tracker(id, heads, 0));
    assert Find([], id) == 0;
    assert Lookup([], Arrival(id, heads)) == [Tracker(id, heads, 0)];
    assert Track([], Arrival(id, heads)) == Advance([Tracker(id, heads, 0)], 0);
  }

  // ----- the array itself

  class ChairTable {
    const chairs: array<Tracker>
    var count: nat

    ghost predicate Valid()
      reads this
    {
      chairs.Length == MAX_ACTIVE_CHAIRS && count <= chairs.Length
    }

    ghost function Used(): seq<Tracker>
      requires Valid()
      reads this, chairs
    {
      chairs[..count]
    }

    constructor ()
      ensures Valid() && fresh(chairs) && Used() == []
    {
      chairs := new Tracker[MAX_ACTIVE_CHAIRS](_ => Tracker(0, 0, 0));
      count := 0;
    }

    /** Index of the chair's tracker, found or created; `None` when the array is full. */
    method GetChairTracker(a: Arrival) returns (idx: Option<nat>)
      requires Valid()
      modifies this, chairs
      ensures Valid() && Used() == Lookup(old(Used()), a)
      ensures idx == if Find(old(Used()), a.id) < |Used()| then Some(Find(old(Used()), a.id)) else None
    {
      for i := 0 to count
        invariant forall j | 0 <= j < i :: chairs[j].id != a.id
      {
        if chairs[i].id == a.id {
          assert Used()[i].id == a.id;
          return Some(i);
        }
      }
      assert forall j | 0 <= j < count :: Used()[j].id != a.id;
      if count < MAX_ACTIVE_CHAIRS {
        chairs[count] := Tracker(a.id, a.heads, 0);
        idx := Some(count);
        count := count + 1;
      } else {
        idx := None;
      }
    }

    method RemoveChairTracker(idx: int)
      requires Valid()
      modifies this, chairs
      ensures Valid()
      ensures Used() == if 0 <= idx < |old(Used())| then SwapAndPop(old(Used()), idx) else old(Used())
    {
      if 0 <= idx < count {
        count := count - 1;
        chairs[idx] := chairs[count];
      }
    }

    /** The arrival branch of the main loop; `posted` is the permit handed back. */
    method CountArrival(a: Arrival) returns (posted: bool)
      requires Valid()
      modifies this, chairs
      ensures Valid() && Outcome(Used(), posted) == Track(old(Used()), a)
    {
      posted := false;
      var idx := GetChairTracker(a);
      if idx.Some? {
        var t := chairs[idx.value];
        chairs[idx.value] := t.(arrived := t.arrived + 1);
        if chairs[idx.value].arrived >= chairs[idx.value].expected {
          posted := true;
          RemoveChairTracker(idx.value);
        }
      }
    }
  }
}
