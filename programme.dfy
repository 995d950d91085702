/**
 * The data model of the matchup engine: a programme (a budget proposal with
 * a mutable rating) and the three kinds of option a voter can be shown.
 */
module Programmes {
  import opened Wrappers

  /** A budget proposal. `rating` is the only field a session changes. */
  datatype Programme = Programme(
    id: string,
    name: string,
    cost: real,
    purpose: string,
    justification: string,
    status: string,
    rating: real)

  /**
   * The identity of an option. A plain programme keeps its own id, a
   * combination is known by the sorted ids of its members, a share by its
   * percentage rounded to hundredths of a percent and its base programme's id.
   */
  datatype OptionId =
    | ProgrammeId(id: string)
    | ComboId(sortedIds: seq<string>)
    | ShareId(basisPoints: int, baseId: string)

  /**
   * `MatchupOption`: a plain programme, a combination of programmes bought
   * together, or a fraction of a programme that costs more than the budget.
   */
  datatype MatchupOption =
    | Single(programme: Programme)
    | Combination(comboId: seq<string>, constituentProgrammes: seq<Programme>, totalCost: real)
    | Share(basisPoints: int, baseProgramme: Programme, sharePercentage: real, effectiveCost: real)

  function Id(o: MatchupOption): OptionId
  {
    match o
    case Single(p) => ProgrammeId(p.id)
    case Combination(key, _, _) => ComboId(key)
    case Share(bp, base, _, _) => ShareId(bp, base.id)
  }

  /** The `type` field: a plain programme has none. */
  function TypeTag(o: MatchupOption): Option<string>
  {
    match o
    case Single(_) => None
    case Combination(_, _, _) => Some("combination")
    case Share(_, _, _, _) => Some("share")
  }

  /** `isProgrammeCombination`: the option's `type` is `'combination'`. */
  function IsProgrammeCombination(o: MatchupOption): (b: bool)
    ensures b <==> o.Combination?
  {
    TypeTag(o) == Some("combination")
  }

  /** `isProgrammeShareOption`: the option's `type` is `'share'`. */
  function IsProgrammeShareOption(o: MatchupOption): (b: bool)
    ensures b <==> o.Share?
  {
    TypeTag(o) == Some("share")
  }

  /** No option passes both guards, and a plain programme passes neither. */
  lemma {:induction false} GuardsPartitionOptions(o: MatchupOption)
    ensures !(IsProgrammeCombination(o) && IsProgrammeShareOption(o))
    ensures o.Single? <==> !IsProgrammeCombination(o) && !IsProgrammeShareOption(o)
    ensures o.Single? <==> TypeTag(o).None?
  {
  }
}
