/**
 * The request and response models of the meta-analytics API: the validators of the
 * rankings query's `strategy` and `group_by` parameters, the 1..365 bounds of the day
 * counts, and the bounds a matchup cell must respect — which every cell the matchup
 * matrix computes does.
 */
module ApiModels {
  import opened Common
  import MetaAnalysis

  /** A parameter that passed validation, or the name of the one that failed. */
  datatype Validated<T> = Valid(value: T) | Invalid(field: string)

  const AllowedStrategies: set<string> := {"aggro", "midrange", "control", "ramp", "combo"}

  const AllowedGroupBy: set<string> := {"color_identity", "strategy"}

  const DefaultDays: int := 14

  const MinDays: int := 1

  const MaxDays: int := 365

  /** No upper-case ASCII letter: lower-casing leaves the string unchanged. */
  predicate NoUpper(s: string)
  {
    forall i :: 0 <= i < |s| ==> !('A' <= s[i] <= 'Z')
  }

  lemma LowerKeeps(s: string)
    requires NoUpper(s)
    ensures Lower(s) == s
  {
  }

  lemma LowerIdempotent(s: string)
    ensures Lower(Lower(s)) == Lower(s)
  {
    assert forall i :: 0 <= i < |s| ==> LowerChar(LowerChar(s[i])) == LowerChar(s[i]);
  }

  /** A missing value passes; a present one must be allowed once lower-cased, and is returned lower-cased. */
  function ValidateChoice(v: Option<string>, allowed: set<string>, field: string): (r: Validated<Option<string>>)
    requires forall s :: s in allowed ==> NoUpper(s)
    ensures v.None? ==> r == Valid(None)
    ensures v.Some? && r.Valid? ==> r.value.Some? && r.value.value in allowed && EqIgnoreCase(r.value.value, v.value)
    ensures v.Some? && r.Invalid? ==> r.field == field && forall s :: s in allowed ==> !EqIgnoreCase(s, v.value)
  {
    match v
    case None => Valid(None)
    case Some(s) =>
      if Lower(s) in allowed then
        LowerIdempotent(s);
        Valid(Some(Lower(s)))
      else
        assert forall t :: t in allowed ==> !EqIgnoreCase(t, s) by {
          forall t | t in allowed
            ensures !EqIgnoreCase(t, s)
          {
            LowerKeeps(t);
          }
        }
        Invalid(field)
  }

  /** The allowed values hold no upper-case letter. */
  lemma AllowedAreLower()
    ensures forall s :: s in AllowedStrategies ==> NoUpper(s)
    ensures forall s :: s in AllowedGroupBy ==> NoUpper(s)
  {
    assert NoUpper("aggro") && NoUpper("midrange") && NoUpper("control") && NoUpper("ramp") && NoUpper("combo");
    assert NoUpper("color_identity") && NoUpper("strategy");
  }

  /** `validate_strategy`. */
  function ValidateStrategy(v: Option<string>): (r: Validated<Option<string>>)
    ensures v.None? ==> r == Valid(None)
    ensures v.Some? && r.Valid? ==> r.value.Some? && r.value.value in AllowedStrategies
    ensures r.Invalid? ==> r.field == "strategy"
  {
    AllowedAreLower();
    ValidateChoice(v, AllowedStrategies, "strategy")
  }

  /** `validate_group_by`. */
  function ValidateGroupBy(v: Option<string>): (r: Validated<Option<string>>)
    ensures v.None? ==> r == Valid(None)
    ensures v.Some? && r.Valid? ==> r.value.Some? && r.value.value in AllowedGroupBy
    ensures r.Invalid? ==> r.field == "group_by"
  {
    AllowedAreLower();
    ValidateChoice(v, AllowedGroupBy, "group_by")
  }

  /**
   * The strategy validator accepts exactly the case variants of the five strategies,
   * answers alike for names that differ only in case, and leaves what it accepted unchanged.
   */
  lemma ValidateStrategyCorrect(v: Option<string>, w: Option<string>)
    ensures v.Some? ==> (ValidateStrategy(v).Valid? <==> exists s :: s in AllowedStrategies && EqIgnoreCase(s, v.value))
    ensures v.Some? && w.Some? && EqIgnoreCase(v.value, w.value) ==> ValidateStrategy(v) == ValidateStrategy(w)
    ensures ValidateStrategy(v).Valid? ==> ValidateStrategy(ValidateStrategy(v).value) == ValidateStrategy(v)
  {
    if v.Some? {
      LowerIdempotent(v.value);
      if Lower(v.value) in AllowedStrategies {
        AllowedAreLower();
        LowerKeeps(Lower(v.value));
        assert EqIgnoreCase(Lower(v.value), v.value);
      }
    }
  }

  /**
   * The group-by validator accepts exactly the case variants of the two fields, answers
   * alike for names that differ only in case, and leaves what it accepted unchanged.
   */
  lemma ValidateGroupByCorrect(v: Option<string>, w: Option<string>)
    ensures v.Some? ==> (ValidateGroupBy(v).Valid? <==> exists s :: s in AllowedGroupBy && EqIgnoreCase(s, v.value))
    ensures v.Some? && w.Some? && EqIgnoreCase(v.value, w.value) ==> ValidateGroupBy(v) == ValidateGroupBy(w)
    ensures ValidateGroupBy(v).Valid? ==> ValidateGroupBy(ValidateGroupBy(v).value) == ValidateGroupBy(v)
  {
    if v.Some? {
      LowerIdempotent(v.value);
      if Lower(v.value) in AllowedGroupBy {
        AllowedAreLower();
        LowerKeeps(Lower(v.value));
        assert EqIgnoreCase(Lower(v.value), v.value);
      }
    }
  }

  /** `Field(14, ge=1, le=365)`: a missing day count takes the default. */
  function ValidateDays(days: Option<int>, field: string): (r: Validated<int>)
    ensures r.Valid? ==> MinDays <= r.value <= MaxDays
    ensures days.None? ==> r == Valid(DefaultDays)
    ensures days.Some? ==> (r.Valid? <==> MinDays <= days.value <= MaxDays) && (r.Valid? ==> r.value == days.value)
  {
    var d := if days.Some? then days.value else DefaultDays;
    if MinDays <= d <= MaxDays then Valid(d) else Invalid(field)
  }

  /** `ArchetypeQueryParams` after validation. */
  datatype ArchetypeQuery = ArchetypeQuery(
    format: string, currentDays: int, previousDays: int,
    colorIdentity: Option<string>, strategy: Option<string>, groupBy: Option<string>)

  /** The rankings query's parameters, validated field by field; the first failing field is reported. */
  function ValidateArchetypeQuery(
    format: string, currentDays: Option<int>, previousDays: Option<int>,
    colorIdentity: Option<string>, strategy: Option<string>, groupBy: Option<string>): (r: Validated<ArchetypeQuery>)
    ensures r.Valid? ==> r.value.format == format && r.value.colorIdentity == colorIdentity
    ensures r.Valid? ==> MinDays <= r.value.currentDays <= MaxDays && MinDays <= r.value.previousDays <= MaxDays
    ensures r.Invalid? ==> r.field in ["current_days", "previous_days", "strategy", "group_by"]
    ensures currentDays.Some? && !(MinDays <= currentDays.value <= MaxDays) ==> r == Invalid("current_days")
    ensures r.Valid? <==> (currentDays.None? || MinDays <= currentDays.value <= MaxDays)
                          && (previousDays.None? || MinDays <= previousDays.value <= MaxDays)
                          && ValidateStrategy(strategy).Valid? && ValidateGroupBy(groupBy).Valid?
    ensures r.Valid? ==> r.value.currentDays == (if currentDays.Some? then currentDays.value else DefaultDays)
                         && r.value.previousDays == (if previousDays.Some? then previousDays.value else DefaultDays)
    ensures r.Valid? ==> r.value.strategy == ValidateStrategy(strategy).value && r.value.groupBy == ValidateGroupBy(groupBy).value
  {
    var cd := ValidateDays(currentDays, "current_days");
    var pd := ValidateDays(previousDays, "previous_days");
    var st := ValidateStrategy(strategy);
    var gb := ValidateGroupBy(groupBy);
    if cd.Invalid? then Invalid(cd.field)
    else if pd.Invalid? then Invalid(pd.field)
    else if st.Invalid? then Invalid(st.field)
    else if gb.Invalid? then Invalid(gb.field)
    else Valid(ArchetypeQuery(format, cd.value, pd.value, colorIdentity, st.value, gb.value))
  }

  /**
   * An accepted query has day counts in 1..365, so its two time windows are non-empty and
   * back to back; its strategy is one of the five and its grouping one the rankings know.
   */
  lemma AcceptedQueryIsUsable(
    format: string, currentDays: Option<int>, previousDays: Option<int>,
    colorIdentity: Option<string>, strategy: Option<string>, groupBy: Option<string>, now: int)
    requires ValidateArchetypeQuery(format, currentDays, previousDays, colorIdentity, strategy, groupBy).Valid?
    ensures var q := ValidateArchetypeQuery(format, currentDays, previousDays, colorIdentity, strategy, groupBy).value;
      var w := MetaAnalysis.TimeWindows(now, q.currentDays, q.previousDays);
      w.previousStart < w.previousEnd == w.currentStart < w.currentEnd
      && (q.strategy.Some? ==> q.strategy.value in AllowedStrategies)
      && (q.groupBy == None || q.groupBy == Some("color_identity") || q.groupBy == Some("strategy"))
  {
  }

  /** `MatchupQueryParams`. */
  function ValidateMatchupQuery(format: string, days: Option<int>): (r: Validated<(string, int)>)
    ensures r.Valid? ==> r.value.0 == format && MinDays <= r.value.1 <= MaxDays
    ensures r.Valid? <==> days.None? || MinDays <= days.value <= MaxDays
    ensures r.Valid? ==> r.value.1 == (if days.Some? then days.value else DefaultDays)
    ensures r.Invalid? ==> r.field == "days"
  {
    var d := ValidateDays(days, "days");
    if d.Invalid? then Invalid(d.field) else Valid((format, d.value))
  }

  /** `MatchupCell`'s field bounds. */
  predicate ValidCell(c: MetaAnalysis.Cell)
  {
    c.matchCount >= 0 && (c.winRate.None? || 0.0 <= c.winRate.value <= 100.0)
  }

  /** Every cell the matchup matrix holds satisfies `MatchupCell`'s bounds: wins never exceed games. */
  lemma MatrixCellsValid(ms: seq<MetaAnalysis.MatchRow>, a: string, b: string)
    ensures MetaAnalysis.PairWins(ms, a, b) <= MetaAnalysis.PairCount(ms, a, b)
    ensures ValidCell(MetaAnalysis.Cell(
      MetaAnalysis.RateOf(MetaAnalysis.PairWins(ms, a, b), MetaAnalysis.PairCount(ms, a, b)),
      MetaAnalysis.PairCount(ms, a, b)))
  {
    MetaAnalysis.WinningKeysAmongKeys(ms, MetaAnalysis.PairOfPlayer, MetaAnalysis.Player1Won);
    MetaAnalysis.WinningKeysAmongKeys(ms, MetaAnalysis.PairOfOpponent, MetaAnalysis.Player2Won);
  }

  lemma {:induction false} CountAtMostLength<T>(s: seq<T>, x: T)
    ensures multiset(s)[x] <= |s|
  {
    if s != [] {
      CountAtMostLength(s[1..], x);
      assert s == [s[0]] + s[1..];
    }
  }

  lemma PercentInRange(part: int, whole: int)
    requires 0 <= part <= whole && whole > 0
    ensures 0.0 <= MetaAnalysis.Percent(part, whole) <= 100.0
  {
    assert part as real / whole as real <= 1.0;
  }

  /** `ArchetypeRanking`'s bounds on the current period: each meta share is a percentage and each sample non-empty. */
  lemma MetaSharesInRange(rows: seq<MetaAnalysis.Archetype>)
    ensures forall i :: 0 <= i < |MetaAnalysis.MetaShare(rows)| ==>
      (1 <= MetaAnalysis.MetaShare(rows)[i].sampleSize <= |rows|
      && 0.0 <= MetaAnalysis.MetaShare(rows)[i].metaShare <= 100.0)
  {
    MetaAnalysis.MetaShareRows(rows);
    var r := MetaAnalysis.MetaShare(rows);
    forall i | 0 <= i < |r|
      ensures 1 <= r[i].sampleSize <= |rows| && 0.0 <= r[i].metaShare <= 100.0
    {
      var a := r[i].archetype;
      assert a in multiset(rows);
      CountAtMostLength(rows, a);
      PercentInRange(r[i].sampleSize, |rows|);
    }
  }
}
