/**
  The record types and the persisted aggregate of the Retro.Dto namespace.
  Their C# source is not part of this model: the shapes below are the ones
  Retro/Program.cs relies on (three record classes, the Kudos constructor
  taking the target first, and a Retro object with three record lists).
 */
module Dto {
  import opened Wrappers

  /** A DateTime instant; only equality of instants matters to the model. */
  type Timestamp = int

  /** A C# string reference: None stands for null. */
  type NullableString = Option<string>

  /** string.IsNullOrEmpty */
  predicate IsNullOrEmpty(s: NullableString) {
    s.None? || s.value == ""
  }

  datatype Record =
    | PositiveRecord(description: NullableString, date: Timestamp)
    | NegativeRecord(description: NullableString, date: Timestamp)
    | Kudos(target: NullableString, description: NullableString, date: Timestamp)

  /** The three lists of a Retro object, in the order dump prints them. */
  datatype Section = PositiveSection | NegativeSection | KudosSection

  /** The list a record of this variant belongs to. */
  function SectionOf(r: Record): Section {
    match r
    case PositiveRecord(_, _) => PositiveSection
    case NegativeRecord(_, _) => NegativeSection
    case Kudos(_, _, _) => KudosSection
  }

  /** The content of a Retro object: what the persisted document holds. */
  datatype RetroData = RetroData(
    positiveExperiences: seq<Record>,
    negativeExperiences: seq<Record>,
    kudos: seq<Record>)

  const Empty := RetroData([], [], [])

  function List(d: RetroData, s: Section): seq<Record> {
    match s
    case PositiveSection => d.positiveExperiences
    case NegativeSection => d.negativeExperiences
    case KudosSection => d.kudos
  }

  /** Number of records over all three lists. */
  function Size(d: RetroData): nat {
    |d.positiveExperiences| + |d.negativeExperiences| + |d.kudos|
  }

  /** A record may sit in list s: its variant matches (the C# lists are typed)
      and a kudos names a non-empty target. */
  predicate Fits(r: Record, s: Section) {
    SectionOf(r) == s && (r.Kudos? ==> !IsNullOrEmpty(r.target))
  }

  predicate WellFormed(d: RetroData) {
    forall s: Section, i | 0 <= i < |List(d, s)| :: Fits(List(d, s)[i], s)
  }

  /** Every list of d is a prefix of the same list of e: e only appended to d. */
  predicate Extends(d: RetroData, e: RetroData) {
    forall s: Section :: List(d, s) <= List(e, s)
  }

  /** The Dto.Retro object; its three lists are updated in place. */
  class Retro {
    var positiveExperiences: seq<Record>
    var negativeExperiences: seq<Record>
    var kudos: seq<Record>

    function Data(): RetroData
      reads this
    {
      RetroData(positiveExperiences, negativeExperiences, kudos)
    }

    /** new Dto.Retro(): three empty lists. */
    constructor ()
      ensures Data() == Empty
    {
      positiveExperiences, negativeExperiences, kudos := [], [], [];
    }

    /** The object that deserializing a saved document yields. */
    constructor FromData(d: RetroData)
      ensures Data() == d
    {
      positiveExperiences, negativeExperiences, kudos :=
        d.positiveExperiences, d.negativeExperiences, d.kudos;
    }
  }
}
