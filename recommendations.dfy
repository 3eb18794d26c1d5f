/**
 * `get_recommendations`: the category whose mean emission across the log is
 * largest (the first in column order among equals) selects one fixed list of
 * three pieces of advice.
 */
module Recommendations {
  import opened Emissions
  import opened Aggregates

  const NoRecommendationsMessage := "No data available for recommendations"

  /** Either the "no data" marker or the list of advice. */
  datatype RecommendationResult =
    | NoRecommendations(message: string)
    | Advice(items: seq<string>)

  /** The fixed advice for each category, in the order it is given. */
  function AdviceFor(c: Category): (r: seq<string>)
    ensures |r| == 3
  {
    match c
    case Electricity => [
      "Consider switching to LED bulbs",
      "Use natural light when possible",
      "Upgrade to energy-efficient appliances"]
    case Transportation => [
      "Use public transportation when possible",
      "Consider carpooling",
      "Plan efficient routes to reduce distance"]
    case Heating => [
      "Improve home insulation",
      "Use a programmable thermostat",
      "Service heating system regularly"]
    case Waste => [
      "Increase recycling efforts",
      "Start composting organic waste",
      "Reduce single-use items"]
  }

  /** The emissions column of category `c`. */
  function EmissionsOf(data: seq<Entry>, c: Category): seq<real>
  {
    seq(|data|, i requires 0 <= i < |data| => data[i].emissions.Get(c))
  }

  /** The raw usage column of category `c`. */
  function InputsOf(data: seq<Entry>, c: Category): seq<real>
  {
    seq(|data|, i requires 0 <= i < |data| => data[i].inputs.Get(c))
  }

  /** The mean emission of category `c` per logged entry. */
  function CategoryMean(data: seq<Entry>, c: Category): real
    requires data != []
  {
    Sum(EmissionsOf(data, c)) / (|data| as real)
  }

  /** The row of category means, in column order. */
  function Averages(data: seq<Entry>): (row: seq<real>)
    requires data != []
    ensures |row| == |Columns|
    ensures forall c :: row[Rank(c)] == CategoryMean(data, c)
  {
    seq(|Columns|, i requires 0 <= i < |Columns| => CategoryMean(data, Columns[i]))
  }

  /** The advice `get_recommendations` returns for the log `data`. */
  function Recommend(data: seq<Entry>): (r: RecommendationResult)
    ensures r.NoRecommendations? <==> data == []
    ensures r.NoRecommendations? ==> r.message == NoRecommendationsMessage
  {
    if data == [] then NoRecommendations(NoRecommendationsMessage)
    else Advice(AdviceFor(Columns[IndexOfFirstMax(Averages(data))]))
  }

  /**
   * `c` has the largest mean emission, and every category with an equal mean
   * comes after it in column order.
   */
  ghost predicate IsDominant(data: seq<Entry>, c: Category)
    requires data != []
  {
    forall c' :: CategoryMean(data, c') <= CategoryMean(data, c)
              && (CategoryMean(data, c') == CategoryMean(data, c) ==> Rank(c) <= Rank(c'))
  }

  /** For a non-empty log the advice returned is exactly the dominant category's list. */
  lemma RecommendationFollowsDominantCategory(data: seq<Entry>)
    requires data != []
    ensures Recommend(data).Advice?
    ensures exists c :: IsDominant(data, c) && Recommend(data).items == AdviceFor(c)
  {
    var c := Columns[IndexOfFirstMax(Averages(data))];
    assert IsDominant(data, c);
  }


  /** At most one category is dominant, so the tie-break leaves no choice. */
  lemma DominantUnique(data: seq<Entry>, c1: Category, c2: Category)
    requires data != []
    requires IsDominant(data, c1) && IsDominant(data, c2)
    ensures c1 == c2
  {
    assert CategoryMean(data, c1) == CategoryMean(data, c2);
    assert Rank(c1) <= Rank(c2) && Rank(c2) <= Rank(c1);
  }

  /**
   * For a log of entries built by the tracker, a category's mean emission is its
   * factor times the mean of its raw usage.
   */
  lemma CategoryMeanFromInputs(data: seq<Entry>, c: Category)
    requires data != []
    requires forall i :: 0 <= i < |data| ==> WellFormed(data[i])
    ensures CategoryMean(data, c) == Factor(c) * Sum(InputsOf(data, c)) / (|data| as real)
  {
    SumScaled(InputsOf(data, c), EmissionsOf(data, c), Factor(c));
  }

  /** The advice depends only on which entries are logged, not on their order. */
  lemma RecommendIgnoresEntryOrder(a: seq<Entry>, b: seq<Entry>)
    requires multiset(a) == multiset(b)
    ensures Recommend(a) == Recommend(b)
  {
    assert |a| == |multiset(a)| == |multiset(b)| == |b|;
    if a != [] {
      forall c ensures CategoryMean(a, c) == CategoryMean(b, c) {
        var emission := (e: Entry) => e.emissions.Get(c);
        ColumnSumIgnoresOrder(a, b, emission);
        assert EmissionsOf(a, c) == Column(a, emission);
        assert EmissionsOf(b, c) == Column(b, emission);
      }
      assert Averages(a) == Averages(b);
    }
  }
}
