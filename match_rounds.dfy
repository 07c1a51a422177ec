/**
 * The rounds and matches a tournament loader writes. A round identifier becomes a
 * number: bracket labels by a fixed table, other labels by the interpreter's string
 * hash folded into 10000..19999, integers as they are, floats truncated; a round whose
 * identifier gives no number is skipped by the first loop, and one whose identifier
 * cannot be hashed makes the second loop raise. A table becomes a match only when it has
 * at most two players and each present (truthy) player id is a known player of the
 * tournament; a player that is not an object, or a truthy id that cannot be hashed,
 * raises. The string hash is given as `hash`; the ids of the known players are the set
 * `existing`.
 */
module MatchRounds {
  import opened Common
  import opened TournamentFilters

  const BracketRounds: map<string, int> :=
    map["Top 8" := 1000, "Top 4" := 2000, "Top 16" := 500, "Top 32" := 250,
        "Semifinals" := 2000, "Finals" := 3000, "Quarterfinals" := 1500]

  function Abs(x: int): nat
  {
    if x < 0 then -x else x
  }

  /** `round_info.get('round')`. */
  function RoundId(r: Dict): Json
  {
    GetOr(r, "round", JNull)
  }

  /** `int(r)` of a float: truncation toward zero. */
  function TruncReal(r: real): (t: int)
    ensures 0.0 <= r ==> t as real <= r < t as real + 1.0
    ensures r < 0.0 ==> t as real - 1.0 < r <= t as real
  {
    if r >= 0.0 then r.Floor else -((-r).Floor)
  }

  /**
   * The number a round identifier gets: a string by the bracket table or the hash, an
   * integer as it is, a bool as 0 or 1 and a float as `int()` truncates it. None when
   * `int()` of it fails: a missing identifier, a list or an object.
   */
  function RoundNumber(tid: string, id: Json, hash: string -> int): (n: Option<int>)
    ensures n.None? <==> id.JNull? || !Hashable(id)
  {
    match id
    case JStr(s) => if s in BracketRounds then Some(BracketRounds[s]) else Some(Abs(hash(tid + "_" + s)) % 10000 + 10000)
    case JInt(i) => Some(i)
    case JBool(b) => Some(if b then 1 else 0)
    case JReal(r) => Some(TruncReal(r))
    case _ => None
  }

  /** Bracket labels get their fixed numbers and integer rounds keep their value. */
  lemma BracketAndNumericRounds(tid: string, hash: string -> int)
    ensures RoundNumber(tid, JStr("Top 8"), hash) == Some(1000)
    ensures RoundNumber(tid, JStr("Top 4"), hash) == Some(2000)
    ensures RoundNumber(tid, JStr("Finals"), hash) == Some(3000)
    ensures forall i :: RoundNumber(tid, JInt(i), hash) == Some(i)
  {
    assert "Top 8" in BracketRounds && "Top 4" in BracketRounds && "Finals" in BracketRounds;
  }

  /** A float round is truncated toward zero: 3.0 is round 3, 2.5 round 2 and -2.5 round -2. */
  lemma FloatRoundsTruncate(tid: string, hash: string -> int)
    ensures RoundNumber(tid, JReal(3.0), hash) == Some(3)
    ensures RoundNumber(tid, JReal(2.5), hash) == Some(2)
    ensures RoundNumber(tid, JReal(-2.5), hash) == Some(-2)
  {
  }

  /**
   * Identifiers that Python takes for the same dict key (1, 1.0 and True) get the same
   * number, so the number map's key aliasing changes no lookup.
   */
  lemma EqualKeysShareNumber(tid: string, hash: string -> int)
    ensures forall i: int :: RoundNumber(tid, JReal(i as real), hash) == RoundNumber(tid, JInt(i), hash)
    ensures RoundNumber(tid, JBool(true), hash) == RoundNumber(tid, JInt(1), hash)
    ensures RoundNumber(tid, JBool(false), hash) == RoundNumber(tid, JInt(0), hash)
  {
    forall i: int
      ensures RoundNumber(tid, JReal(i as real), hash) == RoundNumber(tid, JInt(i), hash)
    {
      TruncOfInt(i);
    }
  }

  lemma TruncOfInt(i: int)
    ensures TruncReal(i as real) == i
  {
    var t := TruncReal(i as real);
    if 0.0 <= i as real {
      assert t <= i < t + 1;
    } else {
      assert t - 1 < i <= t;
    }
  }

  /**
   * Any other label lands in 10000..19999, so it never takes the number of a bracket
   * label nor of a round numbered below 10000.
   */
  lemma OtherLabelsAvoidBracketNumbers(tid: string, name: string, hash: string -> int)
    requires name !in BracketRounds
    ensures RoundNumber(tid, JStr(name), hash).Some?
    ensures 10000 <= RoundNumber(tid, JStr(name), hash).value < 20000
    ensures forall b :: b in BracketRounds ==> RoundNumber(tid, JStr(name), hash) != RoundNumber(tid, JStr(b), hash)
  {
    forall b | b in BracketRounds
      ensures BracketRounds[b] < 10000
    {
    }
  }

  /** One row of match_rounds: the number, the tournament, and the label when the identifier was a string. */
  datatype RoundRow = RoundRow(roundNumber: int, tournamentId: string, description: Option<string>)

  /** One row of matches. */
  datatype MatchRow = MatchRow(roundNumber: int, tournamentId: string, matchNum: Option<int>,
                               player1: Json, player2: Json, winner: Json, status: Json)

  /** What one table of a numbered round gives: a match row, nothing, or an exception. */
  datatype TableOutcome = Row(row: MatchRow) | Skipped | Raises

  /** What `insert_match_rounds` writes, or the exception it re-raises. */
  datatype Inserted = Inserted(roundRows: seq<RoundRow>, matches: seq<MatchRow>) | Raised

  /**
   * What a table without an integer "table" value gets as its match number: nothing
   * (the ETL loaders), or its position in the round counting from 1 (the tournament pipeline).
   */
  datatype MatchNumbering = EmptyWhenMissing | PositionWhenMissing

  /** Python's isinstance(v, int), under which a bool is an int. */
  function IntValue(v: Json): (r: Option<int>)
    ensures r.Some? <==> v.JInt? || v.JBool?
  {
    match v
    case JInt(i) => Some(i)
    case JBool(b) => Some(if b then 1 else 0)
    case _ => None
  }

  predicate RoundsReadable(rounds: seq<Dict>)
  {
    forall i :: 0 <= i < |rounds| ==> RoundReadable(rounds[i])
  }

  /** `players[k].get('id')` is read for each player of a valid table, so each must be an object. */
  predicate PlayersAreObjects(table: Json)
    requires TableReadable(table)
  {
    forall q :: 0 <= q < |Players(table)| ==> Players(table)[q].JObject?
  }

  /** `players[k].get('id') if len(players) > k else None`. */
  function PlayerId(table: Json, k: nat): Json
    requires TableReadable(table) && PlayersAreObjects(table)
  {
    if k < |Players(table)| then GetOr(Players(table)[k].fields, "id", JNull) else JNull
  }

  /** A player id passes the existence check when it is falsy or the id of a known player. */
  predicate Known(id: Json, existing: set<string>)
  {
    !Truthy(id) || (id.JStr? && id.s in existing)
  }

  /** `id and id not in existing_player_ids` raises when the id is truthy and cannot be hashed. */
  predicate CheckRaises(id: Json)
  {
    Truthy(id) && !Hashable(id)
  }

  function MatchNum(table: Json, position: nat, numbering: MatchNumbering): (n: Option<int>)
    requires table.JObject?
    ensures numbering == PositionWhenMissing ==> n.Some?
  {
    match IntValue(GetOr(table.fields, "table", JNull))
    case Some(v) => Some(v)
    case None => if numbering == PositionWhenMissing then Some(position + 1) else None
  }

  /**
   * What a table at `position` of a numbered round gives. Both player ids are read before
   * either is checked, and the second is checked only when the first passes.
   */
  function TableMatch(tid: string, number: int, table: Json, position: nat, existing: set<string>, numbering: MatchNumbering): (o: TableOutcome)
    requires TableReadable(table)
    ensures o.Row? <==> IsValidMatch(table) && PlayersAreObjects(table)
                        && Known(PlayerId(table, 0), existing) && Known(PlayerId(table, 1), existing)
    ensures o.Raises? <==> IsValidMatch(table)
                           && (!PlayersAreObjects(table) || CheckRaises(PlayerId(table, 0))
                               || (Known(PlayerId(table, 0), existing) && CheckRaises(PlayerId(table, 1))))
    ensures o.Row? ==> o.row.roundNumber == number && o.row.tournamentId == tid
    ensures o.Row? ==> PlayersAreObjects(table) && o.row.player1 == PlayerId(table, 0) && o.row.player2 == PlayerId(table, 1)
  {
    if !IsValidMatch(table) then Skipped
    else if !PlayersAreObjects(table) then Raises
    else
      var p1 := PlayerId(table, 0);
      var p2 := PlayerId(table, 1);
      if CheckRaises(p1) then Raises
      else if !Known(p1, existing) then Skipped
      else if CheckRaises(p2) then Raises
      else if !Known(p2, existing) then Skipped
      else Row(MatchRow(number, tid, MatchNum(table, position, numbering), p1, p2,
                        GetOr(table.fields, "winner_id", JNull), GetOr(table.fields, "status", JStr(""))))
  }

  /** The rows a table outcome adds; None for an exception. */
  function TableRows(o: TableOutcome): Option<seq<MatchRow>>
  {
    match o
    case Row(m) => Some([m])
    case Skipped => Some([])
    case Raises => None
  }

  /** Rows so far followed by more rows; an exception in either part is the outcome. */
  function Append(a: Option<seq<MatchRow>>, b: Option<seq<MatchRow>>): Option<seq<MatchRow>>
  {
    if a.Some? && b.Some? then Some(a.value + b.value) else None
  }

  /** The rows of a sequence of steps taken in order; None once a step raises. */
  function Concat(steps: seq<Option<seq<MatchRow>>>): Option<seq<MatchRow>>
  {
    if steps == [] then Some([])
    else Append(Concat(steps[..|steps| - 1]), steps[|steps| - 1])
  }

  lemma ConcatSnoc(steps: seq<Option<seq<MatchRow>>>, step: Option<seq<MatchRow>>)
    ensures Concat(steps + [step]) == Append(Concat(steps), step)
  {
    assert (steps + [step])[..|steps|] == steps;
  }

  /** A prefix one step longer adds that step. */
  lemma ConcatPrefixSnoc(steps: seq<Option<seq<MatchRow>>>, i: int)
    requires 0 <= i < |steps|
    ensures Concat(steps[..i + 1]) == Append(Concat(steps[..i]), steps[i])
  {
    var p := steps[..i + 1];
    assert p[..i] == steps[..i];
  }

  /** The whole sequence is its longest prefix. */
  lemma ConcatWhole(steps: seq<Option<seq<MatchRow>>>)
    ensures Concat(steps[..|steps|]) == Concat(steps)
  {
    assert steps[..|steps|] == steps;
  }

  /** A sequence of steps raises exactly when one of its steps does. */
  lemma {:induction false} ConcatRaisesIff(steps: seq<Option<seq<MatchRow>>>)
    ensures Concat(steps).None? <==> exists i :: 0 <= i < |steps| && steps[i].None?
  {
    if steps != [] {
      var init := steps[..|steps| - 1];
      ConcatRaisesIff(init);
      if Concat(init).None? {
        var i :| 0 <= i < |init| && init[i].None?;
        assert steps[i] == init[i];
      } else if steps[|init|].Some? {
        forall i | 0 <= i < |steps|
          ensures steps[i].Some?
        {
          if i < |init| {
            assert steps[i] == init[i];
          }
        }
      }
    }
  }

  /** Every row of a completed sequence of steps is a row of one of the steps. */
  lemma {:induction false} ConcatRowsFromSteps(steps: seq<Option<seq<MatchRow>>>)
    ensures Concat(steps).Some? ==>
      forall m :: m in Concat(steps).value ==> exists i :: 0 <= i < |steps| && steps[i].Some? && m in steps[i].value
  {
    if steps != [] && Concat(steps).Some? {
      var init := steps[..|steps| - 1];
      ConcatRowsFromSteps(init);
      forall m | m in Concat(steps).value
        ensures exists i :: 0 <= i < |steps| && steps[i].Some? && m in steps[i].value
      {
        if m in Concat(init).value {
          var i :| 0 <= i < |init| && init[i].Some? && m in init[i].value;
          assert steps[i] == init[i];
        } else {
          assert m in steps[|init|].value;
        }
      }
    }
  }

  /** Steps that give at most one row each give at most one row per step. */
  lemma {:induction false} ConcatAtMostOneEach(steps: seq<Option<seq<MatchRow>>>)
    requires forall i :: 0 <= i < |steps| && steps[i].Some? ==> |steps[i].value| <= 1
    ensures Concat(steps).Some? ==> |Concat(steps).value| <= |steps|
  {
    if steps != [] {
      var init := steps[..|steps| - 1];
      assert forall i :: 0 <= i < |init| ==> init[i] == steps[i];
      ConcatAtMostOneEach(init);
    }
  }

  /** What each table of a round gives, at its position in the round. */
  function TableSteps(tid: string, number: int, tables: seq<Json>, existing: set<string>, numbering: MatchNumbering): (steps: seq<Option<seq<MatchRow>>>)
    requires forall k :: 0 <= k < |tables| ==> TableReadable(tables[k])
    ensures |steps| == |tables|
    ensures forall k :: 0 <= k < |tables| ==> steps[k] == TableRows(TableMatch(tid, number, tables[k], k, existing, numbering))
  {
    seq(|tables|, k requires 0 <= k < |tables| => TableRows(TableMatch(tid, number, tables[k], k, existing, numbering)))
  }

  /** The matches of a round's tables, in order; None when a table raises. */
  function RoundMatches(tid: string, number: int, tables: seq<Json>, existing: set<string>, numbering: MatchNumbering): (ms: Option<seq<MatchRow>>)
    requires forall k :: 0 <= k < |tables| ==> TableReadable(tables[k])
    ensures ms.Some? ==> |ms.value| <= |tables|
  {
    var steps := TableSteps(tid, number, tables, existing, numbering);
    ConcatAtMostOneEach(steps);
    Concat(steps)
  }

  /** The identifier of every round, in order. */
  function Ids(rounds: seq<Dict>): (ids: seq<Json>)
    ensures |ids| == |rounds| && forall i :: 0 <= i < |rounds| ==> ids[i] == RoundId(rounds[i])
  {
    seq(|rounds|, i requires 0 <= i < |rounds| => RoundId(rounds[i]))
  }

  /** The round rows of a sequence of identifiers: one per identifier that gives a number, in order. */
  function RowsOf(tid: string, ids: seq<Json>, hash: string -> int): seq<RoundRow>
  {
    if ids == [] then []
    else
      var init := ids[..|ids| - 1];
      var id := ids[|ids| - 1];
      var n := RoundNumber(tid, id, hash);
      RowsOf(tid, init, hash)
      + (if n.Some? then [RoundRow(n.value, tid, if id.JStr? then Some(id.s) else None)] else [])
  }

  /** The round rows: one per round whose identifier gives a number, in order. */
  function RoundRows(tid: string, rounds: seq<Dict>, hash: string -> int): seq<RoundRow>
  {
    RowsOf(tid, Ids(rounds), hash)
  }

  /**
   * What the second loop takes from one round: `round_number_map.get` raises for an
   * identifier that cannot be hashed, a missing identifier gives nothing, and a numbered
   * round gives the matches of its tables.
   */
  function RoundStep(tid: string, r: Dict, existing: set<string>, hash: string -> int, numbering: MatchNumbering): Option<seq<MatchRow>>
    requires RoundReadable(r)
  {
    var n := RoundNumber(tid, RoundId(r), hash);
    if !Hashable(RoundId(r)) then None
    else if n.None? then Some([])
    else RoundMatches(tid, n.value, Tables(r), existing, numbering)
  }

  /** What each round gives in the second loop. */
  function RoundSteps(tid: string, rounds: seq<Dict>, existing: set<string>, hash: string -> int, numbering: MatchNumbering): (steps: seq<Option<seq<MatchRow>>>)
    requires RoundsReadable(rounds)
    ensures |steps| == |rounds|
    ensures forall i :: 0 <= i < |rounds| ==> steps[i] == RoundStep(tid, rounds[i], existing, hash, numbering)
  {
    seq(|rounds|, i requires 0 <= i < |rounds| => RoundStep(tid, rounds[i], existing, hash, numbering))
  }

  /** The match rows: the matches of every numbered round, in round order; None when a round raises. */
  function Matches(tid: string, rounds: seq<Dict>, existing: set<string>, hash: string -> int, numbering: MatchNumbering): Option<seq<MatchRow>>
    requires RoundsReadable(rounds)
  {
    Concat(RoundSteps(tid, rounds, existing, hash, numbering))
  }

  /**
   * `insert_match_rounds`: the first loop numbers the rounds and remembers each
   * identifier's number; the second turns the tables of every numbered round into matches,
   * and an exception there is re-raised.
   */
  method InsertMatchRounds(tid: string, rounds: seq<Dict>, existing: set<string>, hash: string -> int, numbering: MatchNumbering)
    returns (outcome: Inserted)
    requires RoundsReadable(rounds)
    ensures outcome.Raised? <==> Matches(tid, rounds, existing, hash, numbering).None?
    ensures outcome.Inserted? ==> outcome.roundRows == RoundRows(tid, rounds, hash)
                                  && Some(outcome.matches) == Matches(tid, rounds, existing, hash, numbering)
  {
    if rounds == [] {
      return Inserted([], []);
    }
    var ids := Ids(rounds);
    var roundRows, numbers := NumberRounds(tid, ids, hash);
    var matches := MatchAllRounds(tid, rounds, numbers, existing, hash, numbering);
    if matches.None? {
      return Raised;
    }
    outcome := Inserted(roundRows, matches.value);
  }

  /** The second loop: the matches of every round whose identifier has a number, or None when one raises. */
  method MatchAllRounds(tid: string, rounds: seq<Dict>, numbers: map<Json, int>,
                        existing: set<string>, hash: string -> int, numbering: MatchNumbering)
    returns (matches: Option<seq<MatchRow>>)
    requires RoundsReadable(rounds) && Numbered(tid, hash, numbers)
    requires forall j :: 0 <= j < |rounds| && RoundNumber(tid, RoundId(rounds[j]), hash).Some? ==> RoundId(rounds[j]) in numbers
    ensures matches == Matches(tid, rounds, existing, hash, numbering)
  {
    ghost var steps := RoundSteps(tid, rounds, existing, hash, numbering);
    var found: seq<MatchRow> := [];
    var i := 0;
    while i < |rounds|
      invariant 0 <= i <= |rounds|
      invariant Concat(steps[..i]) == Some(found)
    {
      ConcatPrefixSnoc(steps, i);
      var more := MatchRound(tid, rounds[i], numbers, existing, hash, numbering);
      if more.None? {
        ConcatRaisesIff(steps);
        return None;
      }
      found := found + more.value;
      i := i + 1;
    }
    ConcatWhole(steps);
    matches := Some(found);
  }

  /**
   * One pass of the second loop: `round_number_map.get` raises for an identifier that
   * cannot be hashed and finds no number for a missing one; a numbered round's tables
   * are matched.
   */
  method MatchRound(tid: string, r: Dict, numbers: map<Json, int>, existing: set<string>, hash: string -> int, numbering: MatchNumbering)
    returns (more: Option<seq<MatchRow>>)
    requires RoundReadable(r) && Numbered(tid, hash, numbers)
    requires RoundNumber(tid, RoundId(r), hash).Some? ==> RoundId(r) in numbers
    ensures more == RoundStep(tid, r, existing, hash, numbering)
  {
    var id := RoundId(r);
    if !Hashable(id) {
      return None;
    }
    if id !in numbers {
      return Some([]);
    }
    assert RoundNumber(tid, id, hash) == Some(numbers[id]);
    more := RoundTableMatches(tid, numbers[id], Tables(r), existing, numbering);
  }

  /** One more round adds its matches when its identifier has a number, nothing when it is missing, and raises when it cannot be hashed. */
  lemma MatchesSnoc(tid: string, rounds: seq<Dict>, r: Dict, existing: set<string>, hash: string -> int, numbering: MatchNumbering)
    requires RoundsReadable(rounds) && RoundReadable(r)
    ensures RoundsReadable(rounds + [r])
    ensures Matches(tid, rounds + [r], existing, hash, numbering)
            == Append(Matches(tid, rounds, existing, hash, numbering), RoundStep(tid, r, existing, hash, numbering))
  {
    var all := rounds + [r];
    assert RoundSteps(tid, all, existing, hash, numbering)
           == RoundSteps(tid, rounds, existing, hash, numbering) + [RoundStep(tid, r, existing, hash, numbering)];
    ConcatSnoc(RoundSteps(tid, rounds, existing, hash, numbering), RoundStep(tid, r, existing, hash, numbering));
  }

  /**
   * The first loop, over the round identifiers: the round rows, and the number of every
   * identifier that has one.
   */
  method NumberRounds(tid: string, ids: seq<Json>, hash: string -> int)
    returns (roundRows: seq<RoundRow>, numbers: map<Json, int>)
    ensures roundRows == RowsOf(tid, ids, hash)
    ensures Numbered(tid, hash, numbers)
    ensures forall j :: 0 <= j < |ids| && RoundNumber(tid, ids[j], hash).Some? ==> ids[j] in numbers
  {
    roundRows := [];
    numbers := map[];
    var i := 0;
    while i < |ids|
      invariant 0 <= i <= |ids|
      invariant roundRows == RowsOf(tid, ids[..i], hash)
      invariant Numbered(tid, hash, numbers)
      invariant forall j :: 0 <= j < i && RoundNumber(tid, ids[j], hash).Some? ==> ids[j] in numbers
    {
      RowsOfSnoc(tid, ids, i, hash);
      var id := ids[i];
      var n := RoundNumber(tid, id, hash);
      if n.Some? {
        NumberedPut(tid, hash, numbers, id, n.value);
        numbers := numbers[id := n.value];
        roundRows := roundRows + [RoundRow(n.value, tid, if id.JStr? then Some(id.s) else None)];
      }
      i := i + 1;
    }
    assert ids[..i] == ids;
  }

  /** Every identifier in `numbers` is mapped to its round number. */
  ghost predicate Numbered(tid: string, hash: string -> int, numbers: map<Json, int>)
  {
    forall id :: id in numbers ==> RoundNumber(tid, id, hash) == Some(numbers[id])
  }

  lemma NumberedPut(tid: string, hash: string -> int, numbers: map<Json, int>, id: Json, v: int)
    requires Numbered(tid, hash, numbers) && RoundNumber(tid, id, hash) == Some(v)
    ensures Numbered(tid, hash, numbers[id := v])
  {
  }

  /** A prefix one identifier longer adds that identifier's row, if it has a number. */
  lemma RowsOfSnoc(tid: string, ids: seq<Json>, i: int, hash: string -> int)
    requires 0 <= i < |ids|
    ensures var n := RoundNumber(tid, ids[i], hash);
      RowsOf(tid, ids[..i + 1], hash)
      == RowsOf(tid, ids[..i], hash) + (if n.Some? then [RoundRow(n.value, tid, if ids[i].JStr? then Some(ids[i].s) else None)] else [])
  {
    assert ids[..i + 1][..i] == ids[..i];
  }

  /** The inner loop over one round's tables, with each table's position; None when a table raises. */
  method RoundTableMatches(tid: string, number: int, tables: seq<Json>, existing: set<string>, numbering: MatchNumbering)
    returns (found: Option<seq<MatchRow>>)
    requires forall k :: 0 <= k < |tables| ==> TableReadable(tables[k])
    ensures found == RoundMatches(tid, number, tables, existing, numbering)
  {
    ghost var steps := TableSteps(tid, number, tables, existing, numbering);
    var rows: seq<MatchRow> := [];
    var k := 0;
    while k < |tables|
      invariant 0 <= k <= |tables|
      invariant Concat(steps[..k]) == Some(rows)
    {
      ConcatPrefixSnoc(steps, k);
      var o := MatchTable(tid, number, tables[k], k, existing, numbering);
      if o.Raises? {
        ConcatRaisesIff(steps);
        return None;
      }
      if o.Row? {
        rows := rows + [o.row];
      } else {
        assert rows + [] == rows;
      }
      k := k + 1;
    }
    ConcatWhole(steps);
    found := Some(rows);
  }

  /**
   * One pass of the inner loop: a table with more than two players is skipped; both
   * player ids are read, then each is checked in turn, and the first that is present but
   * unknown skips the table.
   */
  method MatchTable(tid: string, number: int, table: Json, position: nat, existing: set<string>, numbering: MatchNumbering)
    returns (o: TableOutcome)
    requires TableReadable(table)
    ensures o == TableMatch(tid, number, table, position, existing, numbering)
  {
    if !IsValidMatch(table) {
      return Skipped;
    }
    if !PlayersAreObjects(table) {
      return Raises;
    }
    var p1 := PlayerId(table, 0);
    var p2 := PlayerId(table, 1);
    if CheckRaises(p1) {
      return Raises;
    }
    if !Known(p1, existing) {
      return Skipped;
    }
    if CheckRaises(p2) {
      return Raises;
    }
    if !Known(p2, existing) {
      return Skipped;
    }
    o := Row(MatchRow(number, tid, MatchNum(table, position, numbering), p1, p2,
                      GetOr(table.fields, "winner_id", JNull), GetOr(table.fields, "status", JStr(""))));
  }

  /** A round's tables raise exactly when one of them does. */
  lemma RoundMatchesRaiseIff(tid: string, number: int, tables: seq<Json>, existing: set<string>, numbering: MatchNumbering)
    requires forall k :: 0 <= k < |tables| ==> TableReadable(tables[k])
    ensures RoundMatches(tid, number, tables, existing, numbering).None?
            <==> exists k :: 0 <= k < |tables| && TableMatch(tid, number, tables[k], k, existing, numbering).Raises?
  {
    var steps := TableSteps(tid, number, tables, existing, numbering);
    ConcatRaisesIff(steps);
    if Concat(steps).None? {
      var k :| 0 <= k < |steps| && steps[k].None?;
      assert TableMatch(tid, number, tables[k], k, existing, numbering).Raises?;
    }
  }

  /** A round raises in the second loop: its identifier cannot be hashed, or it is numbered and one of its tables raises. */
  predicate RoundRaises(tid: string, r: Dict, existing: set<string>, hash: string -> int, numbering: MatchNumbering)
    requires RoundReadable(r)
  {
    !Hashable(RoundId(r))
    || (RoundNumber(tid, RoundId(r), hash).Some?
        && exists k :: 0 <= k < |Tables(r)|
             && TableMatch(tid, RoundNumber(tid, RoundId(r), hash).value, Tables(r)[k], k, existing, numbering).Raises?)
  }

  lemma RoundStepRaisesIff(tid: string, r: Dict, existing: set<string>, hash: string -> int, numbering: MatchNumbering)
    requires RoundReadable(r)
    ensures RoundStep(tid, r, existing, hash, numbering).None? <==> RoundRaises(tid, r, existing, hash, numbering)
  {
    var n := RoundNumber(tid, RoundId(r), hash);
    if Hashable(RoundId(r)) && n.Some? {
      RoundMatchesRaiseIff(tid, n.value, Tables(r), existing, numbering);
    }
  }

  /** The second loop raises exactly when one of the rounds does; the first loop never raises. */
  lemma MatchesRaiseIff(tid: string, rounds: seq<Dict>, existing: set<string>, hash: string -> int, numbering: MatchNumbering)
    requires RoundsReadable(rounds)
    ensures Matches(tid, rounds, existing, hash, numbering).None?
            <==> exists i :: 0 <= i < |rounds| && RoundRaises(tid, rounds[i], existing, hash, numbering)
  {
    var steps := RoundSteps(tid, rounds, existing, hash, numbering);
    ConcatRaisesIff(steps);
    forall i | 0 <= i < |rounds|
      ensures steps[i].None? <==> RoundRaises(tid, rounds[i], existing, hash, numbering)
    {
      RoundStepRaisesIff(tid, rounds[i], existing, hash, numbering);
    }
  }

  /** Every emitted match has players that are falsy or known, the round's number and the tournament's id. */
  lemma RoundMatchesAreValid(tid: string, number: int, tables: seq<Json>, existing: set<string>, numbering: MatchNumbering)
    requires forall k :: 0 <= k < |tables| ==> TableReadable(tables[k])
    ensures var ms := RoundMatches(tid, number, tables, existing, numbering);
      ms.Some? ==> forall m :: m in ms.value ==>
        Known(m.player1, existing) && Known(m.player2, existing) && m.roundNumber == number && m.tournamentId == tid
    ensures var ms := RoundMatches(tid, number, tables, existing, numbering);
      ms.Some? && numbering == PositionWhenMissing ==> forall m :: m in ms.value ==> m.matchNum.Some?
  {
    var steps := TableSteps(tid, number, tables, existing, numbering);
    ConcatRowsFromSteps(steps);
    forall m | Concat(steps).Some? && m in Concat(steps).value
      ensures Known(m.player1, existing) && Known(m.player2, existing) && m.roundNumber == number && m.tournamentId == tid
      ensures numbering == PositionWhenMissing ==> m.matchNum.Some?
    {
      var k :| 0 <= k < |steps| && steps[k].Some? && m in steps[k].value;
      var o := TableMatch(tid, number, tables[k], k, existing, numbering);
      assert o.Row? && m == o.row;
    }
  }

  /**
   * Matches are emitted only with known (or absent) players; under the tournament
   * pipeline's numbering every match has a number.
   */
  lemma MatchesHaveKnownPlayers(tid: string, rounds: seq<Dict>, existing: set<string>, hash: string -> int, numbering: MatchNumbering)
    requires RoundsReadable(rounds)
    ensures var ms := Matches(tid, rounds, existing, hash, numbering);
      ms.Some? ==> forall m :: m in ms.value ==> Known(m.player1, existing) && Known(m.player2, existing)
    ensures var ms := Matches(tid, rounds, existing, hash, numbering);
      ms.Some? && numbering == PositionWhenMissing ==> forall m :: m in ms.value ==> m.matchNum.Some?
  {
    var steps := RoundSteps(tid, rounds, existing, hash, numbering);
    ConcatRowsFromSteps(steps);
    forall m | Concat(steps).Some? && m in Concat(steps).value
      ensures Known(m.player1, existing) && Known(m.player2, existing)
      ensures numbering == PositionWhenMissing ==> m.matchNum.Some?
    {
      var i :| 0 <= i < |steps| && steps[i].Some? && m in steps[i].value;
      var r := rounds[i];
      var n := RoundNumber(tid, RoundId(r), hash);
      assert Hashable(RoundId(r)) && n.Some?;
      RoundMatchesAreValid(tid, n.value, Tables(r), existing, numbering);
    }
  }

  /** A round whose identifier is missing yields no round row and no matches. */
  lemma UnnumberedRoundSkipped(tid: string, rounds: seq<Dict>, r: Dict, existing: set<string>, hash: string -> int, numbering: MatchNumbering)
    requires RoundsReadable(rounds) && RoundReadable(r) && RoundId(r) == JNull
    ensures RoundsReadable(rounds + [r])
    ensures RoundRows(tid, rounds + [r], hash) == RoundRows(tid, rounds, hash)
    ensures Matches(tid, rounds + [r], existing, hash, numbering) == Matches(tid, rounds, existing, hash, numbering)
  {
    var all := rounds + [r];
    assert Ids(all)[..|rounds|] == Ids(rounds);
    MatchesSnoc(tid, rounds, r, existing, hash, numbering);
    var ms := Matches(tid, rounds, existing, hash, numbering);
    if ms.Some? {
      assert ms.value + [] == ms.value;
    }
  }

  /**
   * A round whose identifier is a list or an object is skipped by the first loop, which
   * cannot convert it, and makes the second loop raise.
   */
  lemma UnhashableRoundRaises(tid: string, rounds: seq<Dict>, r: Dict, existing: set<string>, hash: string -> int, numbering: MatchNumbering)
    requires RoundsReadable(rounds) && RoundReadable(r) && !Hashable(RoundId(r))
    ensures RoundsReadable(rounds + [r])
    ensures RoundRows(tid, rounds + [r], hash) == RoundRows(tid, rounds, hash)
    ensures Matches(tid, rounds + [r], existing, hash, numbering).None?
  {
    var all := rounds + [r];
    assert Ids(all)[..|rounds|] == Ids(rounds);
    MatchesSnoc(tid, rounds, r, existing, hash, numbering);
  }

  /**
   * A present player id that is not a string (a bool or a number) is never a known
   * player, so a table whose first player has one is skipped.
   */
  lemma NonStringIdSkipsTable(tid: string, number: int, table: Json, position: nat, existing: set<string>, numbering: MatchNumbering)
    requires TableReadable(table) && IsValidMatch(table) && PlayersAreObjects(table)
    requires Truthy(PlayerId(table, 0)) && Hashable(PlayerId(table, 0)) && !PlayerId(table, 0).JStr?
    ensures TableMatch(tid, number, table, position, existing, numbering) == Skipped
  {
  }
}
