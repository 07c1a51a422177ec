/**
 * Which tournaments and which match tables the loaders keep. Tournaments, rounds and
 * tables are JSON objects. The tournament loaders exclude Commander and Limited
 * formats and anything that is not Magic: The Gathering; the shared filter module
 * has no Limited check.
 */
module TournamentFilters {
  import opened Common

  type Dict = seq<(string, Json)>

  const CommanderFormats: set<string> := {"EDH", "Pauper EDH", "Duel Commander", "Tiny Leaders", "EDH Draft", "Oathbreaker"}

  const LimitedFormats: set<string> := {"Draft", "Sealed", "Limited", "Booster Draft", "Sealed Deck", "Cube Draft", "Team Draft", "Team Sealed"}

  const Game: string := "Magic: The Gathering"

  /** A format value `.strip()` accepts: a string, or a falsy value the guard returns on first. */
  predicate FormatReadable(v: Json)
  {
    !Truthy(v) || v.JStr?
  }

  /** `is_commander_format`: falsy gives false; otherwise the stripped name is one of the six, exactly. */
  function IsCommanderFormat(v: Json): (r: bool)
    requires FormatReadable(v)
    ensures !Truthy(v) ==> !r
    ensures r ==> !FormatIn(v, LimitedFormats)
  {
    if FormatIn(v, CommanderFormats) then
      FormatSetsDisjoint(Strip(v.s));
      true
    else false
  }

  /** No format name is both a Commander and a Limited format. */
  lemma FormatSetsDisjoint(name: string)
    requires name in CommanderFormats
    ensures name !in LimitedFormats
  {
  }

  /** `is_limited_format`: falsy gives false; otherwise the stripped name is one of the eight, exactly. */
  function IsLimitedFormat(v: Json): (r: bool)
    requires FormatReadable(v)
    ensures !Truthy(v) ==> !r
    ensures r ==> !IsCommanderFormat(v)
  {
    FormatIn(v, LimitedFormats)
  }

  /** The shape both checks share: a truthy value whose stripped text is in the set. */
  predicate FormatIn(v: Json, formats: set<string>)
    requires FormatReadable(v)
  {
    Truthy(v) && InFormats(v.s, formats)
  }

  /** The stripped name is one of the set, compared exactly. */
  predicate InFormats(name: string, formats: set<string>)
  {
    Strip(name) in formats
  }

  /** `tournament.get('format', '')`. */
  function FormatOf(t: Dict): Json
  {
    GetOr(t, "format", JStr(""))
  }

  /** `tournament.get('game', '') == 'Magic: The Gathering'`. */
  predicate IsMagic(t: Dict)
  {
    GetOr(t, "game", JStr("")) == JStr(Game)
  }

  /** The two rule sets: the tournament loaders' and the shared filter module's. */
  datatype Rules = ConstructedOnly | NonCommander

  /** `should_include_tournament`: Commander first, then (for the loaders) Limited, then the game. */
  function ShouldInclude(t: Dict, rules: Rules): (r: bool)
    requires FormatReadable(FormatOf(t))
    ensures r ==> IsMagic(t) && !IsCommanderFormat(FormatOf(t))
    ensures r && rules == ConstructedOnly ==> !IsLimitedFormat(FormatOf(t))
    ensures !IsMagic(t) ==> !r
  {
    if IsCommanderFormat(FormatOf(t)) then false
    else if rules == ConstructedOnly && IsLimitedFormat(FormatOf(t)) then false
    else IsMagic(t)
  }

  predicate AllReadable(ts: seq<Dict>)
  {
    forall i :: 0 <= i < |ts| ==> FormatReadable(FormatOf(ts[i]))
  }

  /** Included exactly when not Commander, not Limited under the loaders' rules, and Magic. */
  lemma IncludedIff(t: Dict, rules: Rules)
    requires FormatReadable(FormatOf(t))
    ensures ShouldInclude(t, rules) <==>
      !IsCommanderFormat(FormatOf(t)) && !(rules == ConstructedOnly && IsLimitedFormat(FormatOf(t))) && IsMagic(t)
  {
  }

  /**
   * The format checks strip surrounding white space first, so stripping the value
   * beforehand changes nothing (for a set without the empty name, as both are).
   */
  lemma FormatChecksIgnoreSurroundingSpace(s: string, formats: set<string>)
    requires [] !in formats
    ensures FormatIn(JStr(s), formats) <==> FormatIn(JStr(Strip(s)), formats)
  {
    var t := Strip(s);
    StripIsIdempotent(s);
    FormatInIsStrippedIn(s, formats);
    FormatInIsStrippedIn(t, formats);
  }

  /** With the empty name excluded, a string format is in the set exactly when its stripped text is. */
  lemma FormatInIsStrippedIn(s: string, formats: set<string>)
    requires [] !in formats
    ensures FormatIn(JStr(s), formats) <==> Strip(s) in formats
  {
    if s == [] {
      assert Strip(s) == [];
    }
  }

  lemma NamesIgnoreSurroundingSpace(s: string, formats: set<string>)
    ensures InFormats(s, formats) <==> InFormats(Strip(s), formats)
  {
    StripIsIdempotent(s);
  }

  /** A blank name is in a format set only if the empty name is. */
  lemma BlankNameMatchesNothing(formats: set<string>)
    ensures InFormats([], formats) <==> [] in formats
  {
    assert Strip([]) == [];
  }

  /** Neither format set holds the empty name. */
  lemma NoEmptyFormatName()
    ensures [] !in CommanderFormats && [] !in LimitedFormats
  {
  }

  lemma StripIsIdempotent(s: string)
    ensures Strip(Strip(s)) == Strip(s)
  {
    var t := Strip(s);
    if t != [] {
      assert StripRight(t) == t;
    }
  }

  /** The format check is exact: a lower-case spelling is not a Commander format. */
  lemma CommanderCheckIsExact()
    ensures !IsCommanderFormat(JStr("edh"))
  {
    assert Strip("edh") == "edh" by {
      assert !IsSpace('h') && !IsSpace('e');
    }
  }

  /** `filter_tournaments`: the included tournaments, in their order. */
  function FilterTournaments(ts: seq<Dict>, rules: Rules): (r: seq<Dict>)
    requires AllReadable(ts)
    ensures |r| <= |ts|
    ensures AllReadable(r)
  {
    if ts == [] then []
    else
      var init := ts[..|ts| - 1];
      var last := ts[|ts| - 1];
      assert forall i :: 0 <= i < |init| ==> init[i] == ts[i];
      assert ts == init + [last];
      FilterTournaments(init, rules) + (if ShouldInclude(last, rules) then [last] else [])
  }

  /** A tournament is kept exactly when it is in the input and included. */
  lemma {:induction false} FilterMembership(ts: seq<Dict>, rules: Rules)
    requires AllReadable(ts)
    ensures forall t :: t in FilterTournaments(ts, rules) <==> t in ts && ShouldInclude(t, rules)
  {
    if ts != [] {
      var init := ts[..|ts| - 1];
      assert forall i :: 0 <= i < |init| ==> init[i] == ts[i];
      assert ts == init + [ts[|ts| - 1]];
      FilterMembership(init, rules);
    }
  }

  lemma ReadableConcat(a: seq<Dict>, b: seq<Dict>)
    requires AllReadable(a) && AllReadable(b)
    ensures AllReadable(a + b)
  {
    forall i | 0 <= i < |a + b|
      ensures FormatReadable(FormatOf((a + b)[i]))
    {
      if i < |a| {
        assert (a + b)[i] == a[i];
      } else {
        assert (a + b)[i] == b[i - |a|];
      }
    }
  }

  /** Appending one tournament appends it to the result exactly when it is included. */
  lemma FilterSnoc(ts: seq<Dict>, t: Dict, rules: Rules)
    requires AllReadable(ts) && FormatReadable(FormatOf(t))
    ensures AllReadable(ts + [t])
    ensures FilterTournaments(ts + [t], rules) == FilterTournaments(ts, rules) + (if ShouldInclude(t, rules) then [t] else [])
  {
    ReadableConcat(ts, [t]);
    assert (ts + [t])[..|ts|] == ts;
  }

  /** The filter keeps order: filtering two runs is filtering each and concatenating. */
  lemma {:induction false} FilterConcat(a: seq<Dict>, b: seq<Dict>, rules: Rules)
    requires AllReadable(a) && AllReadable(b)
    ensures AllReadable(a + b)
    ensures FilterTournaments(a + b, rules) == FilterTournaments(a, rules) + FilterTournaments(b, rules)
    decreases |b|
  {
    ReadableConcat(a, b);
    if b == [] {
      assert a + b == a;
    } else {
      var b0 := b[..|b| - 1];
      var t := b[|b| - 1];
      assert AllReadable(b0) by {
        assert forall i :: 0 <= i < |b0| ==> b0[i] == b[i];
      }
      assert b == b0 + [t];
      FilterConcat(a, b0, rules);
      ConcatAssoc(a, b0, [t]);
      FilterSnoc(a + b0, t, rules);
      FilterSnoc(b0, t, rules);
      ConcatAssoc(FilterTournaments(a, rules), FilterTournaments(b0, rules), if ShouldInclude(t, rules) then [t] else []);
    }
  }

  /** Filtering twice is filtering once. */
  lemma {:induction false} FilterIdempotent(ts: seq<Dict>, rules: Rules)
    requires AllReadable(ts)
    ensures FilterTournaments(FilterTournaments(ts, rules), rules) == FilterTournaments(ts, rules)
  {
    if ts != [] {
      var init := ts[..|ts| - 1];
      var last := ts[|ts| - 1];
      assert AllReadable(init) by {
        assert forall i :: 0 <= i < |init| ==> init[i] == ts[i];
      }
      assert ts == init + [last];
      FilterIdempotent(init, rules);
      var head := FilterTournaments(init, rules);
      assert FilterTournaments(ts, rules) == head + (if ShouldInclude(last, rules) then [last] else []);
      if ShouldInclude(last, rules) {
        FilterSnoc(head, last, rules);
        assert FilterTournaments(head + [last], rules) == head + [last];
      } else {
        assert FilterTournaments(ts, rules) == head;
      }
    }
  }

  /** The loaders' rules keep a subset of what the shared module's rules keep. */
  lemma ConstructedKeepsLess(ts: seq<Dict>)
    requires AllReadable(ts)
    ensures forall t :: t in FilterTournaments(ts, ConstructedOnly) ==> t in FilterTournaments(ts, NonCommander)
  {
    FilterMembership(ts, ConstructedOnly);
    FilterMembership(ts, NonCommander);
  }

  /** The players list of a table, where `len(players)` applies. */
  predicate TableReadable(table: Json)
  {
    table.JObject? && GetOr(table.fields, "players", JList([])).JList?
  }

  function Players(table: Json): seq<Json>
    requires TableReadable(table)
  {
    GetOr(table.fields, "players", JList([])).items
  }

  /** `is_valid_match`: at most two players, the missing list counting as empty. */
  function IsValidMatch(table: Json): (r: bool)
    requires TableReadable(table)
    ensures "players" !in Keys(table.fields) ==> r
  {
    |Players(table)| <= 2
  }

  /** The tables of a round: `round.get('tables', [])`, a list of tables. */
  predicate RoundReadable(r: Dict)
  {
    GetOr(r, "tables", JList([])).JList?
    && forall k :: 0 <= k < |GetOr(r, "tables", JList([])).items| ==> TableReadable(GetOr(r, "tables", JList([])).items[k])
  }

  function Tables(r: Dict): seq<Json>
    requires RoundReadable(r)
  {
    GetOr(r, "tables", JList([])).items
  }

  /** The valid tables of a list, in order. */
  function ValidTables(ts: seq<Json>): (r: seq<Json>)
    requires forall k :: 0 <= k < |ts| ==> TableReadable(ts[k])
    ensures |r| <= |ts|
    ensures forall k :: 0 <= k < |r| ==> TableReadable(r[k]) && IsValidMatch(r[k])
    ensures forall t :: t in r <==> t in ts && IsValidMatch(t)
  {
    if ts == [] then []
    else
      var init := ts[..|ts| - 1];
      var last := ts[|ts| - 1];
      assert forall k :: 0 <= k < |init| ==> init[k] == ts[k];
      assert ts == init + [last];
      ValidTables(init) + (if IsValidMatch(last) then [last] else [])
  }

  /** The round kept for a list of rounds: a copy whose "tables" are only the valid ones. */
  function FilteredRound(r: Dict): Dict
    requires RoundReadable(r)
  {
    SetKey(r, "tables", JList(ValidTables(Tables(r))))
  }

  /** `filter_rounds_data` as a value: the rounds with a valid table, each filtered, in order. */
  function FilteredRounds(rounds: seq<Dict>): seq<Dict>
    requires forall i :: 0 <= i < |rounds| ==> RoundReadable(rounds[i])
  {
    if rounds == [] then []
    else
      var init := rounds[..|rounds| - 1];
      var last := rounds[|rounds| - 1];
      assert forall i :: 0 <= i < |init| ==> init[i] == rounds[i];
      FilteredRounds(init) + (if ValidTables(Tables(last)) != [] then [FilteredRound(last)] else [])
  }

  /** `filter_rounds_data`: the loop that copies each round with a valid table. */
  method FilterRoundsData(rounds: seq<Dict>) returns (kept: seq<Dict>)
    requires forall i :: 0 <= i < |rounds| ==> RoundReadable(rounds[i])
    ensures kept == FilteredRounds(rounds)
  {
    kept := [];
    var i := 0;
    while i < |rounds|
      invariant 0 <= i <= |rounds|
      invariant kept == FilteredRounds(rounds[..i])
    {
      var valid := ValidTables(Tables(rounds[i]));
      assert rounds[..i + 1][..i] == rounds[..i];
      if valid != [] {
        kept := kept + [SetKey(rounds[i], "tables", JList(valid))];
      }
      i := i + 1;
    }
    assert rounds[..i] == rounds;
  }

  /**
   * A filtered round keeps every key but "tables", and its tables are the valid tables
   * of the original, which are not empty.
   */
  lemma FilteredRoundShape(r: Dict)
    requires RoundReadable(r)
    ensures GetKey(FilteredRound(r), "tables") == Some(JList(ValidTables(Tables(r))))
    ensures forall k :: k != "tables" ==> GetKey(FilteredRound(r), k) == GetKey(r, k)
  {
  }

  /** The last round adds its filtered copy when it has a valid table, and nothing otherwise. */
  lemma KeptRoundsSnoc(rounds: seq<Dict>, init: seq<Dict>)
    requires forall i :: 0 <= i < |rounds| ==> RoundReadable(rounds[i])
    requires rounds != [] && init == rounds[..|rounds| - 1]
    ensures forall i :: 0 <= i < |init| ==> RoundReadable(init[i])
    ensures var last := rounds[|rounds| - 1];
      FilteredRounds(rounds)
      == FilteredRounds(init) + (if ValidTables(Tables(last)) != [] then [FilteredRound(last)] else [])
  {
    assert forall i :: 0 <= i < |init| ==> init[i] == rounds[i];
  }

  /** Every kept round is a filtered input round with at least one table, all valid. */
  lemma {:induction false} KeptRoundsAreValid(rounds: seq<Dict>, k: int)
    requires forall i :: 0 <= i < |rounds| ==> RoundReadable(rounds[i])
    requires 0 <= k < |FilteredRounds(rounds)|
    ensures exists i :: 0 <= i < |rounds| && FilteredRounds(rounds)[k] == FilteredRound(rounds[i]) && ValidTables(Tables(rounds[i])) != []
  {
    var init := rounds[..|rounds| - 1];
    KeptRoundsSnoc(rounds, init);
    if k < |FilteredRounds(init)| {
      KeptRoundsAreValid(init, k);
      assert forall i :: 0 <= i < |init| ==> init[i] == rounds[i];
    } else {
      var i := |rounds| - 1;
      assert FilteredRounds(rounds)[k] == FilteredRound(rounds[i]);
    }
  }

  /** A round is dropped exactly when none of its tables is valid: the kept count. */
  lemma {:induction false} KeptRoundCount(rounds: seq<Dict>)
    requires forall i :: 0 <= i < |rounds| ==> RoundReadable(rounds[i])
    ensures |FilteredRounds(rounds)| == |rounds| - DroppedRounds(rounds)
  {
    if rounds != [] {
      var init := rounds[..|rounds| - 1];
      assert forall i :: 0 <= i < |init| ==> init[i] == rounds[i];
      KeptRoundCount(init);
    }
  }

  /** The rounds without a valid table. */
  function DroppedRounds(rounds: seq<Dict>): nat
    requires forall i :: 0 <= i < |rounds| ==> RoundReadable(rounds[i])
  {
    if rounds == [] then 0
    else
      var init := rounds[..|rounds| - 1];
      assert forall i :: 0 <= i < |init| ==> init[i] == rounds[i];
      DroppedRounds(init) + (if ValidTables(Tables(rounds[|rounds| - 1])) == [] then 1 else 0)
  }
}
