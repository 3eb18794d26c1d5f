/** The tracker object: its one piece of state is the list of logged entries. */
module Tracking {
  import opened Emissions

  class CarbonFootprintTracker {
    /** The logged entries, oldest first; this list only ever grows at the end. */
    var data: seq<Entry>

    /** Every entry in the log satisfies the entry invariant. */
    ghost predicate Valid()
      reads this
    {
      forall i :: 0 <= i < |data| ==> WellFormed(data[i])
    }

    /** A tracker over the entries the persistence layer loaded. */
    constructor (loaded: seq<Entry>)
      ensures data == loaded
      ensures Valid() <==> forall i :: 0 <= i < |loaded| ==> WellFormed(loaded[i])
    {
      data := loaded;
    }

    /**
     * Builds the entry for `date` from the four usage values (each zero when
     * not given), appends it to the log and returns it.
     */
    method AddEntry(date: Day, electricity: real := 0.0, transportation: real := 0.0,
                    heating: real := 0.0, waste: real := 0.0) returns (e: Entry)
      modifies this
      ensures data == old(data) + [e]
      ensures e.date == date
      ensures e.inputs == PerCategory(electricity, transportation, heating, waste)
      ensures WellFormed(e)
      ensures old(Valid()) ==> Valid()
    {
      e := BuildEntry(date, electricity, transportation, heating, waste);
      data := data + [e];
    }
  }
}
