/**
 * The meta-analysis service. Archetype rankings: a format's decklists in a current and a
 * previous window are grouped into archetypes with their share of the field, match
 * results from both players' sides give each archetype a win rate, the periods are
 * joined on the archetype group, filtered, optionally grouped by colour identity or
 * strategy, and sorted by current share. The matchup matrix gives every pair of
 * archetypes that met the number of games and, from three games on, a win rate.
 * Frames are sequences of rows; a nullable column is an Option.
 */
module MetaAnalysis {
  import opened Common
  import opened Sorting

  const SecondsPerDay: int := 86400

  /** `min_matches`: fewer games than this give no win rate. */
  const MinMatches: int := 3

  /** The title a grouped row carries in place of the archetype's. */
  const Grouped: string := "grouped"

  // ---------------------------------------------------------------- time windows

  /** The current window ends now; the previous one ends where the current one starts. Times are in seconds. */
  datatype Windows = Windows(currentStart: int, currentEnd: int, previousStart: int, previousEnd: int)

  function TimeWindows(now: int, currentDays: int, previousDays: int): (w: Windows)
    ensures w.currentEnd == now
    ensures w.currentEnd - w.currentStart == currentDays * SecondsPerDay
    ensures w.previousEnd == w.currentStart
    ensures w.previousEnd - w.previousStart == previousDays * SecondsPerDay
  {
    var currentStart := now - currentDays * SecondsPerDay;
    Windows(currentStart, now, currentStart - previousDays * SecondsPerDay, currentStart)
  }

  /** With positive lengths the windows are non-empty, adjacent and in order; an instant is in at most one. */
  lemma WindowsPartition(now: int, currentDays: int, previousDays: int, t: int)
    requires currentDays > 0 && previousDays > 0
    ensures var w := TimeWindows(now, currentDays, previousDays);
      w.previousStart < w.previousEnd == w.currentStart < w.currentEnd
      && !(w.previousStart <= t < w.previousEnd && w.currentStart <= t < w.currentEnd)
  {
  }

  // ---------------------------------------------------------------- meta share

  /** An archetype group as a decklist row carries it. */
  datatype Archetype = Archetype(groupId: int, mainTitle: string, colorIdentity: string, strategy: string)

  datatype MetaRow = MetaRow(archetype: Archetype, sampleSize: int, metaShare: real)

  function ArchetypeOf(r: MetaRow): Archetype { r.archetype }
  function GroupIdOf(r: MetaRow): int { r.archetype.groupId }
  function ShareOf(r: MetaRow): real { r.metaShare }
  function SampleOf(r: MetaRow): int { r.sampleSize }

  /** `part / whole * 100`. */
  function Percent(part: int, whole: int): real
    requires whole != 0
  {
    part as real / whole as real * 100.0
  }

  /** One row per key: its count in `m` and its percentage of `total`. */
  function MetaRows(ks: seq<Archetype>, m: multiset<Archetype>, total: int): (r: seq<MetaRow>)
    requires total > 0
    ensures |r| == |ks|
    ensures forall i :: 0 <= i < |r| ==>
      (r[i].archetype == ks[i] && r[i].sampleSize == m[ks[i]] && r[i].metaShare == Percent(m[ks[i]], total))
  {
    if ks == [] then []
    else [MetaRow(ks[0], m[ks[0]], Percent(m[ks[0]], total))] + MetaRows(ks[1..], m, total)
  }

  /** `_calculate_meta_share`: group the decklists by archetype, count them, and sort by share of the field. */
  function MetaShare(rows: seq<Archetype>): (r: seq<MetaRow>)
    ensures |r| <= |rows|
    ensures r == [] <==> rows == []
  {
    if |rows| == 0 then []
    else
      var ks := Distinct(rows);
      assert rows[0] in ks;
      assert |ks| <= |rows| by {
        GroupSizesSum(rows);
        CountSumAtLeast(ks, multiset(rows));
      }
      SortDesc(MetaRows(ks, multiset(rows), |rows|), ShareOf)
  }

  /** Every distinct key present in `m` contributes at least one to the count sum. */
  lemma {:induction false} CountSumAtLeast<K>(ks: seq<K>, m: multiset<K>)
    requires forall i :: 0 <= i < |ks| ==> ks[i] in m
    ensures CountSum(ks, m) >= |ks|
  {
    if ks != [] {
      CountSumAtLeast(ks[1..], m);
    }
  }

  lemma {:induction false} MetaRowsSampleSum(ks: seq<Archetype>, m: multiset<Archetype>, total: int)
    requires total > 0
    ensures SumBy(MetaRows(ks, m, total), SampleOf) == CountSum(ks, m)
  {
    if ks != [] {
      MetaRowsSampleSum(ks[1..], m, total);
      assert MetaRows(ks, m, total)[1..] == MetaRows(ks[1..], m, total);
    }
  }

  /** Each meta-share row is an archetype among the decklists, with its count and its percentage of the total. */
  lemma MetaShareRows(rows: seq<Archetype>)
    ensures var r := MetaShare(rows);
      forall i :: 0 <= i < |r| ==>
        (r[i].archetype in rows
        && r[i].sampleSize == multiset(rows)[r[i].archetype]
        && r[i].metaShare == Percent(r[i].sampleSize, |rows|))
  {
    if rows != [] {
      var ks := Distinct(rows);
      var u := MetaRows(ks, multiset(rows), |rows|);
      var p := (x: MetaRow) =>
        x.archetype in rows && x.sampleSize == multiset(rows)[x.archetype] && x.metaShare == Percent(x.sampleSize, |rows|);
      forall i | 0 <= i < |u|
        ensures p(u[i])
      {
        assert ks[i] in rows;
      }
      SortKeeps(u, ShareOf, p, ArchetypeOf);
    }
  }

  /** Every archetype among the decklists has a row. */
  lemma MetaShareCovers(rows: seq<Archetype>)
    ensures var r := MetaShare(rows);
      forall j :: 0 <= j < |rows| ==> exists i :: 0 <= i < |r| && r[i].archetype == rows[j]
  {
    if rows != [] {
      var r := MetaShare(rows);
      var ks := Distinct(rows);
      var u := MetaRows(ks, multiset(rows), |rows|);
      SortKeeps(u, ShareOf, _ => true, ArchetypeOf);
      forall j | 0 <= j < |rows|
        ensures exists i :: 0 <= i < |r| && r[i].archetype == rows[j]
      {
        var k :| 0 <= k < |ks| && ks[k] == rows[j];
        assert ArchetypeOf(u[k]) in Projections(r, ArchetypeOf);
      }
    }
  }

  /** No archetype has two rows, the rows are sorted by share, descending, and the sample sizes add up to the number of decklists. */
  lemma MetaShareSortedAndComplete(rows: seq<Archetype>)
    ensures var r := MetaShare(rows);
      DistinctBy(r, ArchetypeOf) && SortedDesc(r, ShareOf) && SumBy(r, SampleOf) == |rows|
  {
    if rows != [] {
      var ks := Distinct(rows);
      var u := MetaRows(ks, multiset(rows), |rows|);
      assert DistinctBy(u, ArchetypeOf);
      SortKeepsDistinct(u, ShareOf, ArchetypeOf);
      SortDescSorted(u, ShareOf);
      SumBySort(u, ShareOf, SampleOf);
      MetaRowsSampleSum(ks, multiset(rows), |rows|);
      GroupSizesSum(rows);
    }
  }

  /** Group ids determine the rest of the archetype, as rows of the archetype-groups table do. */
  ghost predicate IdsDetermineGroup(rows: seq<Archetype>)
  {
    forall i, j :: 0 <= i < |rows| && 0 <= j < |rows| && rows[i].groupId == rows[j].groupId ==> rows[i] == rows[j]
  }

  /** When ids determine the group, the meta-share rows have distinct ids, so a join on the id matches at most one. */
  lemma MetaShareIdsDistinct(rows: seq<Archetype>)
    requires IdsDetermineGroup(rows)
    ensures DistinctBy(MetaShare(rows), GroupIdOf)
  {
    MetaShareRows(rows);
    MetaShareSortedAndComplete(rows);
    var r := MetaShare(rows);
    forall i, j | 0 <= i < j < |r|
      ensures GroupIdOf(r[i]) != GroupIdOf(r[j])
    {
      assert ArchetypeOf(r[i]) != ArchetypeOf(r[j]);
    }
  }

  // ---------------------------------------------------------------- win rates

  /** A decided match: both players' archetypes and the winner (the query keeps only rows with one). */
  datatype MatchRow = MatchRow(
    playerArchetypeId: int, playerArchetype: string,
    opponentArchetypeId: int, opponentArchetype: string,
    player1: int, player2: int, winner: int)

  predicate Player1Won(m: MatchRow) { m.winner == m.player1 }
  predicate Player2Won(m: MatchRow) { m.winner == m.player2 }

  /** The key `k` gives each match. */
  function KeysOf<K>(ms: seq<MatchRow>, k: MatchRow -> K): (r: seq<K>)
    ensures |r| == |ms|
  {
    if ms == [] then [] else [k(ms[0])] + KeysOf(ms[1..], k)
  }

  /** The key `k` gives each match that `won` holds of. */
  function WinningKeysOf<K>(ms: seq<MatchRow>, k: MatchRow -> K, won: MatchRow -> bool): seq<K>
  {
    if ms == [] then []
    else (if won(ms[0]) then [k(ms[0])] else []) + WinningKeysOf(ms[1..], k, won)
  }

  lemma {:induction false} WinningKeysAmongKeys<K>(ms: seq<MatchRow>, k: MatchRow -> K, won: MatchRow -> bool)
    ensures multiset(WinningKeysOf(ms, k, won)) <= multiset(KeysOf(ms, k))
  {
    if ms != [] {
      WinningKeysAmongKeys(ms[1..], k, won);
    }
  }

  /** Each match seen from the first player's side and then from the second's (`pl.concat([p1, p2])`). */
  function BothSides<K>(ms: seq<MatchRow>, k1: MatchRow -> K, k2: MatchRow -> K): seq<K>
  {
    KeysOf(ms, k1) + KeysOf(ms, k2)
  }

  /** The sides among `BothSides` that won the match. */
  function WinningSides<K>(ms: seq<MatchRow>, k1: MatchRow -> K, k2: MatchRow -> K): seq<K>
  {
    WinningKeysOf(ms, k1, Player1Won) + WinningKeysOf(ms, k2, Player2Won)
  }

  /** Games and wins of one group, and the win rate once there are `MinMatches` games. */
  datatype Stat<K> = Stat(key: K, wins: int, matchCount: int, winRate: Option<real>)

  function KeyOf<K>(s: Stat<K>): K { s.key }
  function CountOf<K>(s: Stat<K>): int { s.matchCount }

  /** `wins / match_count * 100` when there are at least `MinMatches` games, else null. */
  function RateOf(wins: int, count: int): (r: Option<real>)
    ensures r.None? <==> count < MinMatches
    ensures r.Some? && 0 <= wins <= count ==> 0.0 <= r.value <= 100.0
  {
    if count >= MinMatches then
      assert 0 <= wins <= count ==> wins as real / count as real <= 1.0;
      Some(Percent(wins, count))
    else None
  }

  function StatRows<K>(ks: seq<K>, all: multiset<K>, won: multiset<K>): (r: seq<Stat<K>>)
    ensures |r| == |ks|
    ensures forall i :: 0 <= i < |r| ==>
      r[i] == Stat(ks[i], won[ks[i]], all[ks[i]], RateOf(won[ks[i]], all[ks[i]]))
  {
    if ks == [] then []
    else [Stat(ks[0], won[ks[0]], all[ks[0]], RateOf(won[ks[0]], all[ks[0]]))] + StatRows(ks[1..], all, won)
  }

  /** `group_by(key).agg(wins = is_win.sum(), match_count = len())` and the win-rate column. */
  function Stats<K(==)>(keys: seq<K>, winKeys: seq<K>): seq<Stat<K>>
  {
    StatRows(Distinct(keys), multiset(keys), multiset(winKeys))
  }

  lemma {:induction false} StatRowsCountSum<K>(ks: seq<K>, all: multiset<K>, won: multiset<K>)
    ensures SumBy(StatRows(ks, all, won), CountOf) == CountSum(ks, all)
  {
    if ks != [] {
      StatRowsCountSum(ks[1..], all, won);
      assert StatRows(ks, all, won)[1..] == StatRows(ks[1..], all, won);
    }
  }

  /**
   * A row of `Stats(keys, winKeys)` as the aggregation promises it: its key was seen, its
   * game count is the number of times the key occurs, its wins the number of winning
   * occurrences, and its win rate null below `MinMatches` games and otherwise a
   * percentage between 0 and 100.
   */
  ghost predicate StatRowOk<K>(s: Stat<K>, keys: seq<K>, winKeys: seq<K>)
  {
    s.key in keys
    && s.matchCount == multiset(keys)[s.key] >= 1
    && s.wins == multiset(winKeys)[s.key]
    && 0 <= s.wins <= s.matchCount
    && (s.winRate.None? <==> s.matchCount < MinMatches)
    && (s.winRate.Some? ==> s.winRate.value == Percent(s.wins, s.matchCount) && 0.0 <= s.winRate.value <= 100.0)
  }

  /** Every row is right, every key seen has a row, no key has two, and the game counts add up to the observations. */
  ghost predicate StatsHold<K>(keys: seq<K>, winKeys: seq<K>, r: seq<Stat<K>>)
  {
    (forall i :: 0 <= i < |r| ==> StatRowOk(r[i], keys, winKeys))
    && (forall j :: 0 <= j < |keys| ==> exists i :: 0 <= i < |r| && r[i].key == keys[j])
    && DistinctBy(r, KeyOf)
    && SumBy(r, CountOf) == |keys|
  }

  lemma StatsRowsOk<K>(keys: seq<K>, winKeys: seq<K>)
    requires multiset(winKeys) <= multiset(keys)
    ensures forall i :: 0 <= i < |Stats(keys, winKeys)| ==> StatRowOk(Stats(keys, winKeys)[i], keys, winKeys)
  {
    var ks := Distinct(keys);
    var r := Stats(keys, winKeys);
    forall i | 0 <= i < |r|
      ensures StatRowOk(r[i], keys, winKeys)
    {
      var k := ks[i];
      assert k in keys;
      assert multiset(winKeys)[k] <= multiset(keys)[k];
      assert r[i] == Stat(k, multiset(winKeys)[k], multiset(keys)[k], RateOf(multiset(winKeys)[k], multiset(keys)[k]));
    }
  }

  lemma StatsCover<K>(keys: seq<K>, winKeys: seq<K>)
    ensures forall j :: 0 <= j < |keys| ==> exists i :: 0 <= i < |Stats(keys, winKeys)| && Stats(keys, winKeys)[i].key == keys[j]
  {
    var ks := Distinct(keys);
    var r := Stats(keys, winKeys);
    forall j | 0 <= j < |keys|
      ensures exists i :: 0 <= i < |r| && r[i].key == keys[j]
    {
      var i :| 0 <= i < |ks| && ks[i] == keys[j];
      assert r[i].key == keys[j];
    }
  }

  lemma StatsDistinct<K>(keys: seq<K>, winKeys: seq<K>)
    ensures DistinctBy(Stats(keys, winKeys), KeyOf)
  {
    var ks := Distinct(keys);
    var r := Stats(keys, winKeys);
    assert forall i :: 0 <= i < |r| ==> KeyOf(r[i]) == ks[i];
  }

  lemma StatsSum<K>(keys: seq<K>, winKeys: seq<K>)
    ensures SumBy(Stats(keys, winKeys), CountOf) == |keys|
  {
    StatRowsCountSum(Distinct(keys), multiset(keys), multiset(winKeys));
    GroupSizesSum(keys);
  }

  /** `Stats` keeps every promise of the aggregation whenever the winners are among the observations. */
  lemma StatsCorrect<K>(keys: seq<K>, winKeys: seq<K>)
    requires multiset(winKeys) <= multiset(keys)
    ensures StatsHold(keys, winKeys, Stats(keys, winKeys))
  {
    StatsRowsOk(keys, winKeys);
    StatsCover(keys, winKeys);
    StatsDistinct(keys, winKeys);
    StatsSum(keys, winKeys);
  }

  function SideOfPlayer(m: MatchRow): (int, string) { (m.playerArchetypeId, m.playerArchetype) }
  function SideOfOpponent(m: MatchRow): (int, string) { (m.opponentArchetypeId, m.opponentArchetype) }

  type WinStat = Stat<(int, string)>

  function StatGroupId(s: WinStat): int { s.key.0 }

  /** `_calculate_win_rate`: per archetype (id and title), over both sides of every match. */
  function WinRates(ms: seq<MatchRow>): (r: seq<WinStat>)
    ensures r == [] <==> ms == []
  {
    if |ms| == 0 then []
    else
      var sides := BothSides(ms, SideOfPlayer, SideOfOpponent);
      assert |sides| > 0 && sides[0] in Distinct(sides);
      Stats(sides, WinningSides(ms, SideOfPlayer, SideOfOpponent))
  }

  /**
   * Each archetype's games are its appearances on either side, its wins the appearances
   * on the winning side; the rate is null below three games and a percentage otherwise.
   * Every match is counted twice, once per side.
   */
  lemma WinRatesCorrect(ms: seq<MatchRow>)
    ensures StatsHold(BothSides(ms, SideOfPlayer, SideOfOpponent), WinningSides(ms, SideOfPlayer, SideOfOpponent), WinRates(ms))
    ensures |BothSides(ms, SideOfPlayer, SideOfOpponent)| == 2 * |ms|
  {
    if ms != [] {
      WinningKeysAmongKeys(ms, SideOfPlayer, Player1Won);
      WinningKeysAmongKeys(ms, SideOfOpponent, Player2Won);
      StatsCorrect(BothSides(ms, SideOfPlayer, SideOfOpponent), WinningSides(ms, SideOfPlayer, SideOfOpponent));
    }
  }

  // ---------------------------------------------------------------- merge

  /** A ranking row: an archetype (or a group of them) with both periods' statistics. */
  datatype Ranking = Ranking(
    groupId: Option<int>, mainTitle: string, colorIdentity: string, strategy: string,
    metaShareCurrent: real, sampleSizeCurrent: int,
    metaSharePrevious: Option<real>, sampleSizePrevious: Option<int>,
    winRateCurrent: Option<real>, matchCountCurrent: Option<int>,
    winRatePrevious: Option<real>, matchCountPrevious: Option<int>)

  /** The first meta row with the group id (a left join's match). */
  function FindMeta(rows: seq<MetaRow>, id: int): (r: Option<MetaRow>)
    ensures r.None? <==> forall i :: 0 <= i < |rows| ==> rows[i].archetype.groupId != id
    ensures r.Some? ==> r.value in rows && r.value.archetype.groupId == id
  {
    if rows == [] then None
    else if rows[0].archetype.groupId == id then Some(rows[0])
    else
      var r := FindMeta(rows[1..], id);
      assert forall i :: 0 < i < |rows| ==> rows[i] == rows[1..][i - 1];
      r
  }

  /** The first win-rate row with the group id. */
  function FindWins(rows: seq<WinStat>, id: int): (r: Option<WinStat>)
    ensures r.None? <==> forall i :: 0 <= i < |rows| ==> rows[i].key.0 != id
    ensures r.Some? ==> r.value in rows && r.value.key.0 == id
  {
    if rows == [] then None
    else if rows[0].key.0 == id then Some(rows[0])
    else
      var r := FindWins(rows[1..], id);
      assert forall i :: 0 < i < |rows| ==> rows[i] == rows[1..][i - 1];
      r
  }

  function MergeRow(c: MetaRow, prev: seq<MetaRow>, curWins: seq<WinStat>, prevWins: seq<WinStat>): Ranking
  {
    var a := c.archetype;
    var p := FindMeta(prev, a.groupId);
    var cw := FindWins(curWins, a.groupId);
    var pw := FindWins(prevWins, a.groupId);
    Ranking(Some(a.groupId), a.mainTitle, a.colorIdentity, a.strategy, c.metaShare, c.sampleSize,
      if p.Some? then Some(p.value.metaShare) else None,
      if p.Some? then Some(p.value.sampleSize) else None,
      if cw.Some? then cw.value.winRate else None,
      if cw.Some? then Some(cw.value.matchCount) else None,
      if pw.Some? then pw.value.winRate else None,
      if pw.Some? then Some(pw.value.matchCount) else None)
  }

  /** `_merge_period_data`: the current meta rows, left-joined on the group id with the other three frames. */
  function Merge(cur: seq<MetaRow>, prev: seq<MetaRow>, curWins: seq<WinStat>, prevWins: seq<WinStat>): (r: seq<Ranking>)
    ensures |r| == |cur|
  {
    seq(|cur|, i requires 0 <= i < |cur| => MergeRow(cur[i], prev, curWins, prevWins))
  }

  /**
   * The merge keeps the current rows one for one, in order, with their identity and
   * current share; a previous-period or win-rate column is null exactly when the other
   * frame has no row for the group, and otherwise holds that row's value (the only one,
   * since the other frames' ids are distinct).
   */
  lemma MergeIsLeftJoin(cur: seq<MetaRow>, prev: seq<MetaRow>, curWins: seq<WinStat>, prevWins: seq<WinStat>, i: int)
    requires 0 <= i < |cur|
    requires DistinctBy(prev, GroupIdOf) && DistinctBy(curWins, StatGroupId) && DistinctBy(prevWins, StatGroupId)
    ensures var r := Merge(cur, prev, curWins, prevWins)[i];
      var a := cur[i].archetype;
      r.groupId == Some(a.groupId) && r.mainTitle == a.mainTitle
      && r.colorIdentity == a.colorIdentity && r.strategy == a.strategy
      && r.metaShareCurrent == cur[i].metaShare && r.sampleSizeCurrent == cur[i].sampleSize
      && (r.metaSharePrevious.None? <==> forall j :: 0 <= j < |prev| ==> prev[j].archetype.groupId != a.groupId)
      && (forall j :: 0 <= j < |prev| && prev[j].archetype.groupId == a.groupId ==>
            r.metaSharePrevious == Some(prev[j].metaShare) && r.sampleSizePrevious == Some(prev[j].sampleSize))
      && (r.matchCountCurrent.None? <==> forall j :: 0 <= j < |curWins| ==> curWins[j].key.0 != a.groupId)
      && (forall j :: 0 <= j < |curWins| && curWins[j].key.0 == a.groupId ==>
            r.winRateCurrent == curWins[j].winRate && r.matchCountCurrent == Some(curWins[j].matchCount))
      && (r.matchCountPrevious.None? <==> forall j :: 0 <= j < |prevWins| ==> prevWins[j].key.0 != a.groupId)
      && (forall j :: 0 <= j < |prevWins| && prevWins[j].key.0 == a.groupId ==>
            r.winRatePrevious == prevWins[j].winRate && r.matchCountPrevious == Some(prevWins[j].matchCount))
  {
    var id := cur[i].archetype.groupId;
    var p := FindMeta(prev, id);
    if p.Some? {
      var k :| 0 <= k < |prev| && prev[k] == p.value;
      assert forall j :: 0 <= j < |prev| && prev[j].archetype.groupId == id ==> j == k by {
        forall j | 0 <= j < |prev| && prev[j].archetype.groupId == id
          ensures j == k
        {
          assert j < k ==> GroupIdOf(prev[j]) != GroupIdOf(prev[k]);
          assert k < j ==> GroupIdOf(prev[k]) != GroupIdOf(prev[j]);
        }
      }
    }
    OnlyMatch(curWins, id);
    OnlyMatch(prevWins, id);
  }

  lemma OnlyMatch(ws: seq<WinStat>, id: int)
    requires DistinctBy(ws, StatGroupId)
    ensures forall j :: 0 <= j < |ws| && ws[j].key.0 == id ==> FindWins(ws, id) == Some(ws[j])
  {
    var w := FindWins(ws, id);
    forall j | 0 <= j < |ws| && ws[j].key.0 == id
      ensures w == Some(ws[j])
    {
      var k :| 0 <= k < |ws| && ws[k] == w.value;
      assert j < k ==> StatGroupId(ws[j]) != StatGroupId(ws[k]);
      assert k < j ==> StatGroupId(ws[k]) != StatGroupId(ws[j]);
    }
  }

  // ---------------------------------------------------------------- filters and grouping

  datatype Field = ColorIdentity | Strategy

  function FieldOf(r: Ranking, f: Field): string
  {
    match f
    case ColorIdentity => r.colorIdentity
    case Strategy => r.strategy
  }

  /** `_filter_by_color_identity` / `_filter_by_strategy`: the rows whose column equals the value, in order. */
  function FilterBy(rows: seq<Ranking>, f: Field, value: string): (r: seq<Ranking>)
    ensures |r| <= |rows|
    ensures forall i :: 0 <= i < |r| ==> FieldOf(r[i], f) == value
  {
    if rows == [] then []
    else (if FieldOf(rows[0], f) == value then [rows[0]] else []) + FilterBy(rows[1..], f, value)
  }

  /** A filter keeps exactly the rows with the value. */
  lemma {:induction false} FilterByKeeps(rows: seq<Ranking>, f: Field, value: string)
    ensures forall x :: x in FilterBy(rows, f, value) <==> x in rows && FieldOf(x, f) == value
  {
    if rows != [] {
      FilterByKeeps(rows[1..], f, value);
      assert rows == [rows[0]] + rows[1..];
    }
  }

  /** The column values, row by row. */
  function FieldValues(rows: seq<Ranking>, f: Field): (r: seq<string>)
    ensures |r| == |rows|
    ensures forall i :: 0 <= i < |rows| ==> r[i] == FieldOf(rows[i], f)
  {
    if rows == [] then [] else [FieldOf(rows[0], f)] + FieldValues(rows[1..], f)
  }

  function ShareCurrentOf(r: Ranking): real { r.metaShareCurrent }
  function SampleCurrentOf(r: Ranking): int { r.sampleSizeCurrent }
  function SharePreviousOf(r: Ranking): Option<real> { r.metaSharePrevious }
  function SamplePreviousOf(r: Ranking): Option<int> { r.sampleSizePrevious }
  function WinRateCurrentOf(r: Ranking): Option<real> { r.winRateCurrent }
  function WinRatePreviousOf(r: Ranking): Option<real> { r.winRatePrevious }
  function MatchCountCurrentOf(r: Ranking): Option<int> { r.matchCountCurrent }
  function MatchCountPreviousOf(r: Ranking): Option<int> { r.matchCountPrevious }

  function RealSum(rows: seq<Ranking>, f: Ranking -> real): real
  {
    if rows == [] then 0.0 else f(rows[0]) + RealSum(rows[1..], f)
  }

  /** A column's `sum()`: nulls are skipped, and an all-null column sums to 0. */
  function SumPresent(rows: seq<Ranking>, f: Ranking -> Option<int>): int
  {
    if rows == [] then 0
    else (if f(rows[0]).Some? then f(rows[0]).value else 0) + SumPresent(rows[1..], f)
  }

  function RealSumPresent(rows: seq<Ranking>, f: Ranking -> Option<real>): real
  {
    if rows == [] then 0.0
    else (if f(rows[0]).Some? then f(rows[0]).value else 0.0) + RealSumPresent(rows[1..], f)
  }

  function CountPresent(rows: seq<Ranking>, f: Ranking -> Option<real>): (r: nat)
    ensures r == 0 <==> forall i :: 0 <= i < |rows| ==> f(rows[i]).None?
  {
    if rows == [] then 0
    else
      var r := (if f(rows[0]).Some? then 1 else 0) + CountPresent(rows[1..], f);
      assert forall i :: 0 < i < |rows| ==> rows[i] == rows[1..][i - 1];
      r
  }

  /** A column's `mean()`: the average of its non-null values, null when there are none. */
  function MeanPresent(rows: seq<Ranking>, f: Ranking -> Option<real>): (r: Option<real>)
    ensures r.None? <==> forall i :: 0 <= i < |rows| ==> f(rows[i]).None?
  {
    var n := CountPresent(rows, f);
    if n == 0 then None else Some(RealSumPresent(rows, f) / n as real)
  }

  /** The aggregate row of one group: sums, means of the win rates, and the group key in both label columns. */
  function GroupRow(group: seq<Ranking>, key: string): Ranking
  {
    Ranking(None, Grouped, key, key,
      RealSum(group, ShareCurrentOf), SumBy(group, SampleCurrentOf),
      Some(RealSumPresent(group, SharePreviousOf)), Some(SumPresent(group, SamplePreviousOf)),
      MeanPresent(group, WinRateCurrentOf), Some(SumPresent(group, MatchCountCurrentOf)),
      MeanPresent(group, WinRatePreviousOf), Some(SumPresent(group, MatchCountPreviousOf)))
  }

  /** `_group_by_color_identity` / `_group_by_strategy`: one aggregate row per distinct value of the column. */
  function GroupBy(rows: seq<Ranking>, f: Field): (r: seq<Ranking>)
    ensures r == [] <==> rows == []
    ensures forall i :: 0 <= i < |r| ==> r[i].mainTitle == Grouped && r[i].groupId.None? && r[i].colorIdentity == r[i].strategy
  {
    var ks := Distinct(FieldValues(rows, f));
    assert rows != [] ==> FieldValues(rows, f)[0] in ks;
    seq(|ks|, i requires 0 <= i < |ks| => GroupRow(FilterBy(rows, f, ks[i]), ks[i]))
  }

  function LabelOf(r: Ranking): string { r.colorIdentity }

  /**
   * Every grouped row is titled "grouped", has no group id, and carries in both label
   * columns a value that some input row has in the grouped column.
   */
  lemma GroupByLabels(rows: seq<Ranking>, f: Field)
    ensures var g := GroupBy(rows, f);
      forall i :: 0 <= i < |g| ==>
        (g[i].mainTitle == Grouped && g[i].colorIdentity == g[i].strategy && g[i].groupId.None?
        && exists j :: 0 <= j < |rows| && FieldOf(rows[j], f) == g[i].colorIdentity)
  {
    var vs := FieldValues(rows, f);
    var ks := Distinct(vs);
    var g := GroupBy(rows, f);
    forall i | 0 <= i < |g|
      ensures exists j :: 0 <= j < |rows| && FieldOf(rows[j], f) == g[i].colorIdentity
    {
      var j :| 0 <= j < |vs| && vs[j] == ks[i];
    }
  }

  /** Grouping gives exactly one row per distinct value of the column. */
  lemma GroupByOnePerValue(rows: seq<Ranking>, f: Field)
    ensures var g := GroupBy(rows, f);
      (forall j :: 0 <= j < |rows| ==> exists i :: 0 <= i < |g| && g[i].colorIdentity == FieldOf(rows[j], f))
      && DistinctBy(g, LabelOf)
  {
    var vs := FieldValues(rows, f);
    var ks := Distinct(vs);
    var g := GroupBy(rows, f);
    forall j | 0 <= j < |rows|
      ensures exists i :: 0 <= i < |g| && g[i].colorIdentity == FieldOf(rows[j], f)
    {
      var i :| 0 <= i < |ks| && ks[i] == vs[j];
      assert g[i].colorIdentity == ks[i];
    }
    forall i, j | 0 <= i < j < |g|
      ensures LabelOf(g[i]) != LabelOf(g[j])
    {
      assert g[i].colorIdentity == ks[i] && g[j].colorIdentity == ks[j];
    }
  }

  /** The current sample sizes of the rows holding each of the values `ks`, added up. */
  function GroupSums(rows: seq<Ranking>, f: Field, ks: seq<string>): int
  {
    if ks == [] then 0 else SumBy(FilterBy(rows, f, ks[0]), SampleCurrentOf) + GroupSums(rows, f, ks[1..])
  }

  /** A row at the front adds its sample size to the group of its value, if that value is one of `ks`. */
  lemma {:induction false} GroupSumsCons(r: Ranking, rest: seq<Ranking>, f: Field, ks: seq<string>)
    requires forall i, j :: 0 <= i < j < |ks| ==> ks[i] != ks[j]
    ensures GroupSums([r] + rest, f, ks) == (if FieldOf(r, f) in ks then r.sampleSizeCurrent else 0) + GroupSums(rest, f, ks)
  {
    if ks != [] {
      assert forall i, j :: 0 <= i < j < |ks[1..]| ==> ks[1..][i] != ks[1..][j] by {
        forall i, j | 0 <= i < j < |ks[1..]|
          ensures ks[1..][i] != ks[1..][j]
        {
          assert ks[1..][i] == ks[i + 1] && ks[1..][j] == ks[j + 1];
        }
      }
      GroupSumsCons(r, rest, f, ks[1..]);
      var rows := [r] + rest;
      assert rows[0] == r && rows[1..] == rest;
      var hit := if FieldOf(r, f) == ks[0] then [r] else [];
      assert FilterBy(rows, f, ks[0]) == hit + FilterBy(rest, f, ks[0]);
      assert SumBy(hit + FilterBy(rest, f, ks[0]), SampleCurrentOf)
        == (if FieldOf(r, f) == ks[0] then r.sampleSizeCurrent else 0) + SumBy(FilterBy(rest, f, ks[0]), SampleCurrentOf) by {
        var t := FilterBy(rest, f, ks[0]);
        if FieldOf(r, f) == ks[0] {
          assert (hit + t)[0] == r && (hit + t)[1..] == t;
        } else {
          assert hit + t == t;
        }
      }
      assert FieldOf(r, f) in ks <==> FieldOf(r, f) == ks[0] || FieldOf(r, f) in ks[1..] by {
        assert ks == [ks[0]] + ks[1..];
      }
      if FieldOf(r, f) == ks[0] {
        assert FieldOf(r, f) !in ks[1..] by {
          forall j | 0 <= j < |ks[1..]|
            ensures ks[1..][j] != ks[0]
          {
            assert ks[1..][j] == ks[j + 1];
          }
        }
      }
    }
  }

  /** When `ks` holds every value of the column once, the group sums add up to the whole column. */
  lemma {:induction false} GroupSumsCover(rows: seq<Ranking>, f: Field, ks: seq<string>)
    requires forall i, j :: 0 <= i < j < |ks| ==> ks[i] != ks[j]
    requires forall j :: 0 <= j < |rows| ==> FieldOf(rows[j], f) in ks
    ensures GroupSums(rows, f, ks) == SumBy(rows, SampleCurrentOf)
  {
    if rows == [] {
      assert GroupSums([], f, ks) == 0 by {
        GroupSumsEmpty(f, ks);
      }
    } else {
      GroupSumsCover(rows[1..], f, ks);
      assert rows == [rows[0]] + rows[1..];
      GroupSumsCons(rows[0], rows[1..], f, ks);
    }
  }

  lemma {:induction false} GroupSumsEmpty(f: Field, ks: seq<string>)
    ensures GroupSums([], f, ks) == 0
  {
    if ks != [] {
      GroupSumsEmpty(f, ks[1..]);
    }
  }

  /** The grouped rows' sample sizes are the group sums of their labels. */
  lemma {:induction false} GroupRowsSum(rows: seq<Ranking>, f: Field, ks: seq<string>)
    ensures SumBy(seq(|ks|, i requires 0 <= i < |ks| => GroupRow(FilterBy(rows, f, ks[i]), ks[i])), SampleCurrentOf)
      == GroupSums(rows, f, ks)
  {
    var g := seq(|ks|, i requires 0 <= i < |ks| => GroupRow(FilterBy(rows, f, ks[i]), ks[i]));
    if ks != [] {
      GroupRowsSum(rows, f, ks[1..]);
      var tail := seq(|ks[1..]|, i requires 0 <= i < |ks[1..]| => GroupRow(FilterBy(rows, f, ks[1..][i]), ks[1..][i]));
      assert g[1..] == tail;
    }
  }

  /**
   * Grouping neither loses nor double-counts a decklist: the grouped rows' current sample
   * sizes add up to those of the rows grouped.
   */
  lemma GroupByKeepsSampleTotal(rows: seq<Ranking>, f: Field)
    ensures SumBy(GroupBy(rows, f), SampleCurrentOf) == SumBy(rows, SampleCurrentOf)
  {
    var vs := FieldValues(rows, f);
    var ks := Distinct(vs);
    GroupRowsSum(rows, f, ks);
    forall j | 0 <= j < |rows|
      ensures FieldOf(rows[j], f) in ks
    {
      assert vs[j] in ks;
    }
    GroupSumsCover(rows, f, ks);
  }

  // ---------------------------------------------------------------- rankings

  /** A filter argument applies only when it is a non-empty string. */
  predicate Given(s: Option<string>) { s.Some? && s.value != [] }

  /** The merged rows after the filters and the optional grouping, before the sort. */
  function Selected(merged: seq<Ranking>, colorIdentity: Option<string>, strategy: Option<string>, groupBy: Option<string>): seq<Ranking>
  {
    var byColor := if Given(colorIdentity) then FilterBy(merged, ColorIdentity, colorIdentity.value) else merged;
    var byStrategy := if Given(strategy) then FilterBy(byColor, Strategy, strategy.value) else byColor;
    if groupBy == Some("color_identity") then GroupBy(byStrategy, ColorIdentity)
    else if groupBy == Some("strategy") then GroupBy(byStrategy, Strategy)
    else byStrategy
  }

  /** `get_archetype_rankings`: the data rows for the two windows' decklists and matches. */
  function ArchetypeRankings(
    currentDecks: seq<Archetype>, previousDecks: seq<Archetype>,
    currentMatches: seq<MatchRow>, previousMatches: seq<MatchRow>,
    colorIdentity: Option<string>, strategy: Option<string>, groupBy: Option<string>): (r: seq<Ranking>)
    ensures Given(strategy) && groupBy.None? ==> forall i :: 0 <= i < |r| ==> r[i].strategy == strategy.value
    ensures groupBy.Some? && groupBy.value in {"color_identity", "strategy"} ==>
      forall i :: 0 <= i < |r| ==> r[i].mainTitle == Grouped
  {
    var merged := Merge(MetaShare(currentDecks), MetaShare(previousDecks), WinRates(currentMatches), WinRates(previousMatches));
    var selected := Selected(merged, colorIdentity, strategy, groupBy);
    SelectedShape(merged, colorIdentity, strategy, groupBy);
    SortDescMembers(selected, ShareCurrentOf);
    SortDesc(selected, ShareCurrentOf)
  }

  /** The selected rows carry the strategy filtered on, or are all grouped rows. */
  lemma SelectedShape(merged: seq<Ranking>, colorIdentity: Option<string>, strategy: Option<string>, groupBy: Option<string>)
    ensures var sel := Selected(merged, colorIdentity, strategy, groupBy);
      (Given(strategy) && groupBy.None? ==> forall x :: x in sel ==> x.strategy == strategy.value)
      && (groupBy.Some? && groupBy.value in {"color_identity", "strategy"} ==> forall x :: x in sel ==> x.mainTitle == Grouped)
  {
  }

  /** The rankings hold the selected rows, no more and no fewer, sorted by current share, descending. */
  lemma RankingsSorted(
    currentDecks: seq<Archetype>, previousDecks: seq<Archetype>,
    currentMatches: seq<MatchRow>, previousMatches: seq<MatchRow>,
    colorIdentity: Option<string>, strategy: Option<string>, groupBy: Option<string>)
    ensures var merged := Merge(MetaShare(currentDecks), MetaShare(previousDecks), WinRates(currentMatches), WinRates(previousMatches));
      var r := ArchetypeRankings(currentDecks, previousDecks, currentMatches, previousMatches, colorIdentity, strategy, groupBy);
      SortedDesc(r, ShareCurrentOf) && multiset(r) == multiset(Selected(merged, colorIdentity, strategy, groupBy))
  {
    var merged := Merge(MetaShare(currentDecks), MetaShare(previousDecks), WinRates(currentMatches), WinRates(previousMatches));
    SortDescSorted(Selected(merged, colorIdentity, strategy, groupBy), ShareCurrentOf);
  }

  /** Without grouping, a row is selected exactly when it is a merged row matching every filter given. */
  lemma SelectedUngrouped(merged: seq<Ranking>, colorIdentity: Option<string>, strategy: Option<string>, groupBy: Option<string>)
    requires groupBy != Some("color_identity") && groupBy != Some("strategy")
    ensures forall x :: x in Selected(merged, colorIdentity, strategy, groupBy) <==>
      (x in merged
      && (Given(colorIdentity) ==> x.colorIdentity == colorIdentity.value)
      && (Given(strategy) ==> x.strategy == strategy.value))
  {
    var byColor := if Given(colorIdentity) then FilterBy(merged, ColorIdentity, colorIdentity.value) else merged;
    if Given(colorIdentity) {
      FilterByKeeps(merged, ColorIdentity, colorIdentity.value);
    }
    if Given(strategy) {
      FilterByKeeps(byColor, Strategy, strategy.value);
    }
  }

  // ---------------------------------------------------------------- matchup matrix

  function PairOfPlayer(m: MatchRow): (string, string) { (m.playerArchetype, m.opponentArchetype) }
  function PairOfOpponent(m: MatchRow): (string, string) { (m.opponentArchetype, m.playerArchetype) }

  /** Games archetype `a` played against `b`, from `a`'s side. */
  function PairCount(ms: seq<MatchRow>, a: string, b: string): nat
  {
    multiset(BothSides(ms, PairOfPlayer, PairOfOpponent))[(a, b)]
  }

  /** Games `a` won against `b`. */
  function PairWins(ms: seq<MatchRow>, a: string, b: string): nat
  {
    multiset(WinningSides(ms, PairOfPlayer, PairOfOpponent))[(a, b)]
  }

  /** `{win_rate, match_count}` of one matchup. */
  datatype Cell = Cell(winRate: Option<real>, matchCount: int)

  type Matrix = map<string, map<string, Cell>>

  function CellOf(s: Stat<(string, string)>): Cell { Cell(s.winRate, s.matchCount) }

  /** `matchup_stats`: per (player archetype, opponent archetype) over both sides of every match. */
  function MatchupStats(ms: seq<MatchRow>): seq<Stat<(string, string)>>
  {
    Stats(BothSides(ms, PairOfPlayer, PairOfOpponent), WinningSides(ms, PairOfPlayer, PairOfOpponent))
  }

  /** `matrix.setdefault(a, {})[b] = c`. */
  function Put(m: Matrix, a: string, b: string, c: Cell): (r: Matrix)
    ensures forall x, y :: x in r && y in r[x] <==> (x in m && y in m[x]) || (x == a && y == b)
    ensures forall x, y :: x in m && y in m[x] && (x != a || y != b) ==> r[x][y] == m[x][y]
    ensures a in r && b in r[a] && r[a][b] == c
    ensures r.Keys == m.Keys + {a}
  {
    var inner := if a in m then m[a] else map[];
    m[a := inner[b := c]]
  }

  /** The loop that turns the matchup rows into the nested dictionary. */
  method FillMatrix(stats: seq<Stat<(string, string)>>) returns (matrix: Matrix)
    requires DistinctBy(stats, KeyOf)
    ensures forall a, b :: a in matrix && b in matrix[a] <==> exists i :: 0 <= i < |stats| && stats[i].key == (a, b)
    ensures forall i :: 0 <= i < |stats| ==>
      stats[i].key.0 in matrix && stats[i].key.1 in matrix[stats[i].key.0]
      && matrix[stats[i].key.0][stats[i].key.1] == CellOf(stats[i])
    ensures forall a :: a in matrix ==> exists i :: 0 <= i < |stats| && stats[i].key.0 == a
  {
    matrix := map[];
    var n := 0;
    while n < |stats|
      invariant 0 <= n <= |stats|
      invariant forall a, b :: a in matrix && b in matrix[a] <==> exists i :: 0 <= i < n && stats[i].key == (a, b)
      invariant forall i :: 0 <= i < n ==>
        stats[i].key.0 in matrix && stats[i].key.1 in matrix[stats[i].key.0]
        && matrix[stats[i].key.0][stats[i].key.1] == CellOf(stats[i])
      invariant forall a :: a in matrix ==> exists i :: 0 <= i < n && stats[i].key.0 == a
    {
      ghost var before := matrix;
      var player := stats[n].key.0;
      var opponent := stats[n].key.1;
      matrix := Put(matrix, player, opponent, CellOf(stats[n]));
      forall i | 0 <= i < n
        ensures stats[i].key.0 in matrix && stats[i].key.1 in matrix[stats[i].key.0]
        ensures matrix[stats[i].key.0][stats[i].key.1] == CellOf(stats[i])
      {
        assert KeyOf(stats[i]) != KeyOf(stats[n]);
        var (x, y) := stats[i].key;
        assert x != player || y != opponent;
        assert x in before && y in before[x];
      }
      forall a, b
        ensures a in matrix && b in matrix[a] <==> exists i :: 0 <= i < n + 1 && stats[i].key == (a, b)
      {
        if a == player && b == opponent {
          assert stats[n].key == (a, b);
        }
      }
      forall a | a in matrix
        ensures exists i :: 0 <= i < n + 1 && stats[i].key.0 == a
      {
        if a != player {
          assert a in before;
        }
      }
      n := n + 1;
    }
  }

  /**
   * `_calculate_matchup_matrix`: `matrix[a][b]` exists exactly when `a` met `b`, and holds
   * the number of those games and, from three games on, the percentage `a` won.
   */
  method MatchupMatrix(ms: seq<MatchRow>) returns (matrix: Matrix)
    ensures forall a, b :: a in matrix && b in matrix[a] <==> PairCount(ms, a, b) > 0
    ensures forall a, b :: a in matrix && b in matrix[a] ==>
      matrix[a][b] == Cell(RateOf(PairWins(ms, a, b), PairCount(ms, a, b)), PairCount(ms, a, b))
    ensures forall a :: a in matrix ==> exists b :: b in matrix[a]
  {
    if |ms| == 0 {
      return map[];
    }
    var keys := BothSides(ms, PairOfPlayer, PairOfOpponent);
    var winKeys := WinningSides(ms, PairOfPlayer, PairOfOpponent);
    var stats := MatchupStats(ms);
    assert DistinctBy(stats, KeyOf) && multiset(winKeys) <= multiset(keys) by {
      WinningKeysAmongKeys(ms, PairOfPlayer, Player1Won);
      WinningKeysAmongKeys(ms, PairOfOpponent, Player2Won);
      StatsCorrect(keys, winKeys);
    }
    matrix := FillMatrix(stats);
    assert Filled(stats, matrix);
    MatrixCellsObserved(keys, winKeys, matrix);
    MatrixCellValues(keys, winKeys, matrix);
    MatrixRowsNonEmpty(stats, matrix);
  }

  /** What the filling loop leaves: a cell for exactly the keys of `stats`, each holding its row's values. */
  ghost predicate Filled(stats: seq<Stat<(string, string)>>, matrix: Matrix)
  {
    (forall a, b :: a in matrix && b in matrix[a] <==> exists i :: 0 <= i < |stats| && stats[i].key == (a, b))
    && (forall i :: 0 <= i < |stats| ==>
          (stats[i].key.0 in matrix && stats[i].key.1 in matrix[stats[i].key.0]
          && matrix[stats[i].key.0][stats[i].key.1] == CellOf(stats[i])))
    && (forall a :: a in matrix ==> exists i :: 0 <= i < |stats| && stats[i].key.0 == a)
  }

  /** A key has a stats row exactly when it was observed, and that row holds its counts. */
  lemma StatsLookup<K>(keys: seq<K>, winKeys: seq<K>, k: K)
    ensures var stats := Stats(keys, winKeys);
      (multiset(keys)[k] > 0 <==> exists i :: 0 <= i < |stats| && stats[i].key == k)
      && forall i :: 0 <= i < |stats| && stats[i].key == k ==>
        stats[i] == Stat(k, multiset(winKeys)[k], multiset(keys)[k], RateOf(multiset(winKeys)[k], multiset(keys)[k]))
  {
    var stats := Stats(keys, winKeys);
    var ks := Distinct(keys);
    if multiset(keys)[k] > 0 {
      assert k in multiset(keys);
      var j :| 0 <= j < |keys| && keys[j] == k;
      var i :| 0 <= i < |ks| && ks[i] == k;
      assert stats[i].key == k;
    }
    if exists i :: 0 <= i < |stats| && stats[i].key == k {
      var i :| 0 <= i < |stats| && stats[i].key == k;
      assert ks[i] in keys;
    }
  }

  /** The filled matrix holds a cell for exactly the pairs observed. */
  lemma MatrixCellsObserved(keys: seq<(string, string)>, winKeys: seq<(string, string)>, matrix: Matrix)
    requires multiset(winKeys) <= multiset(keys)
    requires Filled(Stats(keys, winKeys), matrix)
    ensures forall a, b :: a in matrix && b in matrix[a] <==> multiset(keys)[(a, b)] > 0
  {
    forall a, b
      ensures a in matrix && b in matrix[a] <==> multiset(keys)[(a, b)] > 0
    {
      StatsLookup(keys, winKeys, (a, b));
    }
  }

  /** Each cell of the filled matrix holds the pair's game count and rate. */
  lemma MatrixCellValues(keys: seq<(string, string)>, winKeys: seq<(string, string)>, matrix: Matrix)
    requires Filled(Stats(keys, winKeys), matrix)
    ensures forall a, b :: a in matrix && b in matrix[a] ==>
      matrix[a][b] == Cell(RateOf(multiset(winKeys)[(a, b)], multiset(keys)[(a, b)]), multiset(keys)[(a, b)])
  {
    var stats := Stats(keys, winKeys);
    forall a, b | a in matrix && b in matrix[a]
      ensures matrix[a][b] == Cell(RateOf(multiset(winKeys)[(a, b)], multiset(keys)[(a, b)]), multiset(keys)[(a, b)])
    {
      StatsLookup(keys, winKeys, (a, b));
      var i :| 0 <= i < |stats| && stats[i].key == (a, b);
      assert matrix[a][b] == CellOf(stats[i]);
    }
  }

  /** The loop creates a row only to put a cell in it. */
  lemma MatrixRowsNonEmpty(stats: seq<Stat<(string, string)>>, matrix: Matrix)
    requires Filled(stats, matrix)
    ensures forall a :: a in matrix ==> exists b :: b in matrix[a]
  {
    forall a | a in matrix
      ensures exists b :: b in matrix[a]
    {
      var i :| 0 <= i < |stats| && stats[i].key.0 == a;
      assert stats[i].key.1 in matrix[a];
    }
  }

  /** A matrix built from both sides of the matches holds `b` against `a` whenever it holds `a` against `b`, with the same count. */
  lemma MatrixSymmetric(ms: seq<MatchRow>, matrix: Matrix)
    requires forall a, b :: a in matrix && b in matrix[a] <==> PairCount(ms, a, b) > 0
    requires forall a, b :: a in matrix && b in matrix[a] ==> matrix[a][b].matchCount == PairCount(ms, a, b)
    ensures forall a, b :: a in matrix && b in matrix[a] ==>
      b in matrix && a in matrix[b] && matrix[b][a].matchCount == matrix[a][b].matchCount
  {
    PairCountsSymmetric(ms);
    MirrorCells(matrix, (a: string, b: string) => PairCount(ms, a, b));
  }

  lemma PairCountsSymmetric(ms: seq<MatchRow>)
    ensures forall a, b :: PairCount(ms, a, b) == PairCount(ms, b, a)
  {
    forall a, b
      ensures PairCount(ms, a, b) == PairCount(ms, b, a)
    {
      PairCountSymmetric(ms, a, b);
    }
  }

  /** A matrix whose cells are exactly the pairs with a positive symmetric count, holding that count, is symmetric. */
  lemma MirrorCells(matrix: Matrix, count: (string, string) -> int)
    requires forall a, b :: count(a, b) == count(b, a)
    requires forall a, b :: a in matrix && b in matrix[a] <==> count(a, b) > 0
    requires forall a, b :: a in matrix && b in matrix[a] ==> matrix[a][b].matchCount == count(a, b)
    ensures forall a, b :: a in matrix && b in matrix[a] ==>
      b in matrix && a in matrix[b] && matrix[b][a].matchCount == matrix[a][b].matchCount
  {
    forall a, b | a in matrix && b in matrix[a]
      ensures b in matrix && a in matrix[b] && matrix[b][a].matchCount == matrix[a][b].matchCount
    {
      assert count(b, a) > 0;
    }
  }

  lemma {:induction false} KeysOfSwapped(ms: seq<MatchRow>, a: string, b: string)
    ensures multiset(KeysOf(ms, PairOfPlayer))[(a, b)] == multiset(KeysOf(ms, PairOfOpponent))[(b, a)]
  {
    if ms != [] {
      KeysOfSwapped(ms[1..], a, b);
    }
  }

  /** Each game between `a` and `b` is seen from both sides: `a` met `b` as often as `b` met `a`. */
  lemma PairCountSymmetric(ms: seq<MatchRow>, a: string, b: string)
    ensures PairCount(ms, a, b) == PairCount(ms, b, a)
  {
    KeysOfSwapped(ms, a, b);
    KeysOfSwapped(ms, b, a);
  }

  /** The winner is exactly one of the two players. */
  predicate OneWinner(m: MatchRow)
  {
    m.player1 != m.player2 && (m.winner == m.player1 || m.winner == m.player2)
  }

  /** The first match's share of the four win counts and the two game counts. */
  lemma WinsSplitHead(m: MatchRow, a: string, b: string)
    requires OneWinner(m)
    ensures multiset(if Player1Won(m) then [PairOfPlayer(m)] else [])[(a, b)]
      + multiset(if Player2Won(m) then [PairOfOpponent(m)] else [])[(a, b)]
      + multiset(if Player1Won(m) then [PairOfPlayer(m)] else [])[(b, a)]
      + multiset(if Player2Won(m) then [PairOfOpponent(m)] else [])[(b, a)]
      == multiset([PairOfPlayer(m)])[(a, b)] + multiset([PairOfOpponent(m)])[(a, b)]
  {
  }

  lemma {:induction false} WinsSplit(ms: seq<MatchRow>, a: string, b: string)
    requires forall i :: 0 <= i < |ms| ==> OneWinner(ms[i])
    ensures multiset(WinningKeysOf(ms, PairOfPlayer, Player1Won))[(a, b)]
      + multiset(WinningKeysOf(ms, PairOfOpponent, Player2Won))[(a, b)]
      + multiset(WinningKeysOf(ms, PairOfPlayer, Player1Won))[(b, a)]
      + multiset(WinningKeysOf(ms, PairOfOpponent, Player2Won))[(b, a)]
      == multiset(KeysOf(ms, PairOfPlayer))[(a, b)] + multiset(KeysOf(ms, PairOfOpponent))[(a, b)]
  {
    if ms != [] {
      var m := ms[0];
      assert forall i :: 0 <= i < |ms[1..]| ==> ms[1..][i] == ms[i + 1];
      WinsSplit(ms[1..], a, b);
      WinsSplitHead(m, a, b);
      assert WinningKeysOf(ms, PairOfPlayer, Player1Won)
        == (if Player1Won(m) then [PairOfPlayer(m)] else []) + WinningKeysOf(ms[1..], PairOfPlayer, Player1Won);
      assert WinningKeysOf(ms, PairOfOpponent, Player2Won)
        == (if Player2Won(m) then [PairOfOpponent(m)] else []) + WinningKeysOf(ms[1..], PairOfOpponent, Player2Won);
      assert KeysOf(ms, PairOfPlayer) == [PairOfPlayer(m)] + KeysOf(ms[1..], PairOfPlayer);
      assert KeysOf(ms, PairOfOpponent) == [PairOfOpponent(m)] + KeysOf(ms[1..], PairOfOpponent);
    }
  }

  /**
   * When every match has exactly one of its players as winner, the games `a` won against
   * `b` and those `b` won against `a` add up to the games between them; so two win rates
   * of a matchup that are both given add up to 100.
   */
  lemma PairWinsComplement(ms: seq<MatchRow>, a: string, b: string)
    requires forall i :: 0 <= i < |ms| ==> OneWinner(ms[i])
    ensures PairWins(ms, a, b) + PairWins(ms, b, a) == PairCount(ms, a, b)
    ensures RateOf(PairWins(ms, a, b), PairCount(ms, a, b)).Some? ==>
      (RateOf(PairWins(ms, b, a), PairCount(ms, b, a)).Some?
      && RateOf(PairWins(ms, a, b), PairCount(ms, a, b)).value
         + RateOf(PairWins(ms, b, a), PairCount(ms, b, a)).value == 100.0)
  {
    WinsSplit(ms, a, b);
    PairCountSymmetric(ms, a, b);
    var c := PairCount(ms, a, b);
    if c >= MinMatches {
      PercentsComplement(PairWins(ms, a, b), PairWins(ms, b, a), c);
    }
  }

  lemma PercentsComplement(x: int, y: int, c: int)
    requires c > 0 && x + y == c
    ensures Percent(x, c) + Percent(y, c) == 100.0
  {
    assert x as real / c as real + y as real / c as real == 1.0 by {
      assert (x as real + y as real) / c as real == 1.0;
    }
  }

  /** `get_matchup_matrix`: no matches give an empty matrix; the archetypes are the matrix's rows. */
  method GetMatchupMatrix(ms: seq<MatchRow>) returns (matrix: Matrix, archetypes: set<string>)
    ensures ms == [] ==> matrix == map[] && archetypes == {}
    ensures archetypes == matrix.Keys
    ensures forall a :: a in archetypes <==> exists b :: PairCount(ms, a, b) > 0
  {
    matrix := MatchupMatrix(ms);
    archetypes := matrix.Keys;
    forall a | a in archetypes
      ensures exists b :: PairCount(ms, a, b) > 0
    {
      var b :| b in matrix[a];
      assert PairCount(ms, a, b) > 0;
    }
  }
}
