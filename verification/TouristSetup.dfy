/** How a tourist process derives the slots of its party from its arguments. */
module TouristSetup {
  import opened Constants
  import Pipeline

  datatype Kind = Walker | Cyclist | Family

  datatype Args = Args(id: int, age: int, kind: Kind, vip: bool, kids: int)

  const GUARDIAN_AGE := 26

  /** tourist_parse_args, on arguments already converted to numbers. */
  function ParseArgs(a: Args): Option<Pipeline.Party> {
    if a.kids > 0 && (a.kind != Family || a.age < GUARDIAN_AGE || a.kids > MAX_KIDS_PER_ADULT) then None
    else Some(Pipeline.Party(a.vip, 1 + a.kids, (if a.kind == Cyclist then 2 else 1) + a.kids))
  }

  predicate SlotsInRange(p: Pipeline.Party) {
    1 <= p.stationSlots <= 3 && 1 <= p.chairSlots <= 3
  }

  /** Kids are refused to anyone but the guardian of a family, at least 26 years old, and more than two
      to everyone; nothing else is. */
  lemma RefusedIff(a: Args)
    ensures ParseArgs(a) == None <==> a.kids >= 1 && !(a.kind == Family && a.age >= 26 && a.kids <= 2)
  {
  }

  /** A walker takes one slot in the station and on the chair, a cyclist one and two, a family one of
      each for everybody in it; VIPs stay VIPs. */
  lemma SlotsByKind(a: Args)
    requires ParseArgs(a).Some? && a.kids >= 0
    ensures var p := ParseArgs(a).value;
            && p.vip == a.vip
            && (a.kind == Walker ==> p.stationSlots == 1 && p.chairSlots == 1)
            && (a.kind == Cyclist ==> p.stationSlots == 1 && p.chairSlots == 2)
            && (a.kind == Family ==> p.stationSlots == p.chairSlots == 1 + a.kids <= 3)
  {
  }

  /** An accepted party needs 1 to 3 slots in the station and on the chair exactly when its
      number of kids is not negative, which the parser does not check. */
  lemma SlotsInRangeIff(a: Args)
    requires ParseArgs(a).Some?
    ensures SlotsInRange(ParseArgs(a).value) <==> a.kids >= 0
  {
  }

  /** The parties of accepted arguments form a valid configuration of the pipeline. */
  lemma AcceptedPartiesAreValid(capacity: int, danger: bool, args: seq<Args>)
    requires capacity > 0
    requires forall i | 0 <= i < |args| :: args[i].kids >= 0 && ParseArgs(args[i]).Some?
    ensures Pipeline.ValidConfig(Pipeline.Config(capacity, danger,
              seq(|args|, i requires 0 <= i < |args| => ParseArgs(args[i]).value)))
  {
    forall i | 0 <= i < |args| ensures SlotsInRange(ParseArgs(args[i]).value) {
      SlotsInRangeIff(args[i]);
    }
  }
}
