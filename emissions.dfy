/**
 * The emission factor table and the entry record that `add_entry` builds:
 * every raw usage value is converted to kg CO2 by its category's factor and
 * the four results are summed into the entry's total.
 */
module Emissions {
  import opened Aggregates

  /** The four usage categories the tracker knows. */
  datatype Category = Electricity | Transportation | Heating | Waste

  /** The categories in the order the entry's emission columns are declared. */
  const Columns: seq<Category> := [Electricity, Transportation, Heating, Waste]

  /** A calendar day as an ordinal number; a later day is a larger number. */
  type Day = int

  /** Kg CO2 emitted per unit of usage: per kWh, per km, per m3 of gas, per kg of waste. */
  function Factor(c: Category): (f: real)
    ensures f > 0.0
  {
    match c
    case Electricity => 0.4
    case Transportation => 0.2
    case Heating => 0.2
    case Waste => 0.5
  }

  /** Position of a category in `Columns`. */
  function Rank(c: Category): (k: nat)
    ensures k < |Columns| && Columns[k] == c
  {
    match c
    case Electricity => 0
    case Transportation => 1
    case Heating => 2
    case Waste => 3
  }

  /** One value per category: the shape of an entry's `inputs` and `emissions` records. */
  datatype PerCategory = PerCategory(electricity: real, transportation: real, heating: real, waste: real)
  {
    function Get(c: Category): real {
      match c
      case Electricity => electricity
      case Transportation => transportation
      case Heating => heating
      case Waste => waste
    }
  }

  /** The values of the categories `cs`, in that order. */
  function ValuesOf(v: PerCategory, cs: seq<Category>): seq<real>
  {
    seq(|cs|, i requires 0 <= i < |cs| => v.Get(cs[i]))
  }

  /** The values of the categories `cs`, added up left to right starting from zero. */
  function SumOver(v: PerCategory, cs: seq<Category>): real
  {
    Sum(ValuesOf(v, cs))
  }

  /** Summing over `Columns` adds each of the four values exactly once. */
  lemma SumOverColumns(v: PerCategory)
    ensures SumOver(v, Columns) == v.electricity + v.transportation + v.heating + v.waste
  {
    var xs := ValuesOf(v, Columns);
    assert xs == [v.electricity, v.transportation, v.heating, v.waste];
    assert xs[..3] == [v.electricity, v.transportation, v.heating];
    assert xs[..3][..2] == [v.electricity, v.transportation];
    assert xs[..3][..2][..1] == [v.electricity];
    assert xs[..3][..2][..1][..0] == [];
    assert Sum(xs[..3][..2][..1]) == v.electricity;
    assert Sum(xs[..3][..2]) == v.electricity + v.transportation;
    assert Sum(xs[..3]) == v.electricity + v.transportation + v.heating;
  }


  /** One logged day: the raw usage, the per-category emissions and their total. */
  datatype Entry = Entry(date: Day, inputs: PerCategory, emissions: PerCategory, totalEmissions: real)

  /**
   * What holds of every entry the tracker builds: each category's emission is
   * its input times its factor, and the total counts each category exactly once.
   */
  ghost predicate WellFormed(e: Entry)
  {
    (forall c: Category :: e.emissions.Get(c) == e.inputs.Get(c) * Factor(c))
    && e.totalEmissions == SumOver(e.emissions, Columns)
  }

  /**
   * The entry record `add_entry` builds from its arguments. Inputs are not
   * validated: a negative usage gives a negative emission.
   */
  function BuildEntry(date: Day, electricity: real, transportation: real, heating: real, waste: real): (e: Entry)
    ensures e.date == date
    ensures e.inputs == PerCategory(electricity, transportation, heating, waste)
    ensures WellFormed(e)
  {
    var inputs := PerCategory(electricity, transportation, heating, waste);
    var emissions := PerCategory(
      electricity * Factor(Electricity),
      transportation * Factor(Transportation),
      heating * Factor(Heating),
      waste * Factor(Waste));
    var total := emissions.electricity + emissions.transportation + emissions.heating + emissions.waste;
    SumOverColumns(emissions);
    Entry(date, inputs, emissions, total)
  }

  /** An entry's total is the factor-weighted sum of its four raw inputs. */
  lemma EntryTotalIsWeightedSum(e: Entry)
    requires WellFormed(e)
    ensures e.totalEmissions == 0.4 * e.inputs.electricity + 0.2 * e.inputs.transportation
                              + 0.2 * e.inputs.heating + 0.5 * e.inputs.waste
  {
    SumOverColumns(e.emissions);
    assert e.emissions.Get(Electricity) == e.inputs.Get(Electricity) * Factor(Electricity);
    assert e.emissions.Get(Transportation) == e.inputs.Get(Transportation) * Factor(Transportation);
    assert e.emissions.Get(Heating) == e.inputs.Get(Heating) * Factor(Heating);
    assert e.emissions.Get(Waste) == e.inputs.Get(Waste) * Factor(Waste);
  }
}
