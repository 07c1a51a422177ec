/**
 * The deck-coaching tools after their queries. A decklist is parsed and each card is
 * matched against the rows the cards query returned: by its normalised name, else by the
 * nearest normalised name within edit distance 2. Matched cards are enriched and their
 * quantities added to the mainboard or sideboard count; the rest are reported. A deck's
 * matchup statistics are the row of the matchup matrix for its archetype, most-played
 * first. The coaching prompt lists each section's cards one per line.
 */
module DeckCoaching {
  import opened Common
  import opened DeckText
  import opened CardNames
  import opened FuzzyMatch
  import UtilsDecklist
  import opened Sorting
  import MetaAnalysis

  const FuzzyThreshold: int := 2

  const EmptyDecklist: string := "Empty or invalid decklist"

  // ---------------------------------------------------------------- the lookup dictionary

  /** A row of the cards query. */
  datatype CardInfo = CardInfo(
    name: string, oracleText: Option<string>, typeLine: Option<string>,
    manaCost: Option<string>, cmc: Option<real>, colorIdentity: Option<seq<string>>)

  /** `card_lookup`: normalised name to card, in insertion order. */
  type Lookup = seq<(string, CardInfo)>

  /** No key appears twice. */
  predicate KeysDistinct(lk: Lookup)
  {
    forall i, j :: 0 <= i < j < |lk| ==> lk[i].0 != lk[j].0
  }

  /** `d[k] = v`: an existing key keeps its place and takes the new value; a new key goes last. */
  function Assign(lk: Lookup, k: string, v: CardInfo): (r: Lookup)
    requires KeysDistinct(lk)
    ensures Keys(r) == Keys(lk) + (if k in Keys(lk) then [] else [k])
    ensures forall i :: 0 <= i < |r| ==> r[i] == (if r[i].0 == k then (k, v) else lk[i])
  {
    if lk == [] then [(k, v)]
    else if lk[0].0 == k then [(k, v)] + lk[1..]
    else
      var rest := Assign(lk[1..], k, v);
      assert Keys(lk) == [lk[0].0] + Keys(lk[1..]);
      assert Keys([lk[0]] + rest) == [lk[0].0] + Keys(rest);
      [lk[0]] + rest
  }

  /** A row's dictionary key: its normalised name. */
  function NormalizedName(row: CardInfo): string
  {
    NormalizeCardName(row.name)
  }

  /**
   * The dictionary a loop assigning each row under its key builds: its keys are the rows'
   * keys, each once, in order of first appearance.
   */
  function LookupOf(rows: seq<CardInfo>, key: CardInfo -> string): (r: Lookup)
    ensures Keys(r) == Distinct(KeysBy(rows, key))
    ensures KeysDistinct(r)
  {
    if rows == [] then []
    else
      var init := rows[..|rows| - 1];
      var last := rows[|rows| - 1];
      assert KeysBy(rows, key)[..|rows| - 1] == KeysBy(init, key);
      var r := Assign(LookupOf(init, key), key(last), last);
      assert forall i :: 0 <= i < |r| ==> r[i].0 == Keys(r)[i];
      r
  }

  /** `for row in db_cards: card_lookup[normalize_card_name(row[0])] = {...}`. */
  method BuildLookup(rows: seq<CardInfo>) returns (lookup: Lookup)
    ensures lookup == LookupOf(rows, NormalizedName)
  {
    lookup := [];
    var i := 0;
    while i < |rows|
      invariant 0 <= i <= |rows|
      invariant lookup == LookupOf(rows[..i], NormalizedName)
    {
      LookupOfSnoc(rows, i, NormalizedName);
      lookup := Assign(lookup, NormalizeCardName(rows[i].name), rows[i]);
      i := i + 1;
    }
    assert rows[..i] == rows;
  }

  /** One more row assigns its key in the lookup of the rows before it. */
  lemma LookupOfSnoc(rows: seq<CardInfo>, i: int, key: CardInfo -> string)
    requires 0 <= i < |rows|
    ensures LookupOf(rows[..i + 1], key) == Assign(LookupOf(rows[..i], key), key(rows[i]), rows[i])
  {
    assert rows[..i + 1][..i] == rows[..i];
  }

  /** `rows[j]` is the last row whose key is `k`. */
  ghost predicate LastWithKey(rows: seq<CardInfo>, key: CardInfo -> string, j: int, k: string)
  {
    0 <= j < |rows| && key(rows[j]) == k
    && forall j' :: j < j' < |rows| ==> key(rows[j']) != k
  }

  lemma LastWithKeyExtends(rows: seq<CardInfo>, key: CardInfo -> string, j: int, k: string)
    requires rows != [] && LastWithKey(rows[..|rows| - 1], key, j, k)
    requires key(rows[|rows| - 1]) != k
    ensures LastWithKey(rows, key, j, k) && rows[j] == rows[..|rows| - 1][j]
  {
    var init := rows[..|rows| - 1];
    forall j' | j < j' < |rows|
      ensures key(rows[j']) != k
    {
      if j' < |init| {
        assert rows[j'] == init[j'];
      }
    }
  }

  /** The entry of `LookupOf(rows, key)` at `i` holds the last row with its key. */
  ghost predicate HoldsLastRow(rows: seq<CardInfo>, key: CardInfo -> string, i: int)
    requires 0 <= i < |LookupOf(rows, key)|
  {
    exists j :: LastWithKey(rows, key, j, LookupOf(rows, key)[i].0) && LookupOf(rows, key)[i].1 == rows[j]
  }

  lemma LastRowStep(init: seq<CardInfo>, last: CardInfo, key: CardInfo -> string, i: int)
    requires 0 <= i < |LookupOf(init + [last], key)|
    requires forall i' :: 0 <= i' < |LookupOf(init, key)| ==> HoldsLastRow(init, key, i')
    ensures HoldsLastRow(init + [last], key, i)
  {
    var rows := init + [last];
    assert rows[..|rows| - 1] == init;
    var k := key(last);
    var prev := LookupOf(init, key);
    var lk := LookupOf(rows, key);
    assert lk == Assign(prev, k, last);
    if lk[i].0 == k {
      assert LastWithKey(rows, key, |rows| - 1, k);
    } else {
      assert lk[i] == prev[i];
      assert HoldsLastRow(init, key, i);
      var j :| LastWithKey(init, key, j, prev[i].0) && prev[i].1 == init[j];
      LastWithKeyExtends(rows, key, j, lk[i].0);
    }
  }

  /** The value under each key is the last row with that key. */
  lemma {:induction false} LookupOfLastRow(rows: seq<CardInfo>, key: CardInfo -> string)
    ensures forall i :: 0 <= i < |LookupOf(rows, key)| ==> HoldsLastRow(rows, key, i)
  {
    if rows == [] {
      assert LookupOf(rows, key) == [];
    } else {
      var init := rows[..|rows| - 1];
      LookupOfLastRow(init, key);
      assert rows == init + [rows[|rows| - 1]];
      forall i | 0 <= i < |LookupOf(rows, key)|
        ensures HoldsLastRow(rows, key, i)
      {
        LastRowStep(init, rows[|rows| - 1], key, i);
      }
    }
  }

  /** `card_lookup.get(k)`. */
  function Get(lk: Lookup, k: string): (r: Option<CardInfo>)
    ensures r.None? <==> k !in Keys(lk)
    ensures r.Some? ==> (k, r.value) in lk
  {
    if lk == [] then None
    else if lk[0].0 == k then Some(lk[0].1)
    else
      assert Keys(lk) == [lk[0].0] + Keys(lk[1..]);
      Get(lk[1..], k)
  }

  /** The entries as (card, key) candidates for the nearest-name search, in key order. */
  function Candidates(lk: Lookup): (r: seq<(CardInfo, string)>)
    ensures |r| == |lk|
    ensures forall i :: 0 <= i < |lk| ==> r[i] == (lk[i].1, lk[i].0)
  {
    if lk == [] then [] else [(lk[0].1, lk[0].0)] + Candidates(lk[1..])
  }

  // ---------------------------------------------------------------- matching one card

  /**
   * The card data for a parsed name: the entry under its normalised name, else the first
   * nearest key within distance 2 — unless that key is the empty string, which the
   * truthiness test rejects.
   */
  function CardData(lk: Lookup, cardName: string): (r: Option<CardInfo>)
    ensures Get(lk, NormalizeCardName(cardName)).Some? ==> r == Get(lk, NormalizeCardName(cardName))
    ensures r.Some? ==> exists i :: 0 <= i < |lk| && lk[i].1 == r.value
  {
    var normalized := NormalizeCardName(cardName);
    var exact := Get(lk, normalized);
    if exact.Some? then
      assert (normalized, exact.value) in lk;
      exact
    else
      var cs := Candidates(lk);
      var best := Closest(cs, normalized, FuzzyThreshold);
      if best.Some? && best.value.1 != [] then
        assert exists i :: 0 <= i < |cs| && cs[i] == best.value;
        Some(best.value.0)
      else None
  }

  /**
   * An exact key wins. Otherwise the card is the value of the first key nearest to the
   * normalised name within distance 2, and there is none exactly when no key is that
   * near or the first nearest key is empty.
   */
  lemma CardDataCorrect(lk: Lookup, cardName: string)
    ensures var n := NormalizeCardName(cardName);
      (Get(lk, n).Some? ==> CardData(lk, cardName) == Get(lk, n))
      && (Get(lk, n).None? && CardData(lk, cardName).Some? ==>
            exists k :: IsFirstClosest(Candidates(lk), n, FuzzyThreshold, k)
              && lk[k].0 != [] && CardData(lk, cardName) == Some(lk[k].1))
      && (Get(lk, n).None? && CardData(lk, cardName).None? ==>
            (forall j :: 0 <= j < |lk| ==> NameDistance(n, lk[j].0) > FuzzyThreshold)
            || exists k :: IsFirstClosest(Candidates(lk), n, FuzzyThreshold, k) && lk[k].0 == [])
  {
    var n := NormalizeCardName(cardName);
    var cs := Candidates(lk);
    ClosestIsFirstClosest(cs, n, FuzzyThreshold);
  }

  /** The matching of one card: the dictionary lookup, then the nearest-name loop. */
  method MatchCard(lookup: Lookup, cardName: string) returns (data: Option<CardInfo>)
    ensures data == CardData(lookup, cardName)
  {
    var normalized := NormalizeCardName(cardName);
    data := Get(lookup, normalized);
    if data.None? {
      var best := FindClosest(normalized, Candidates(lookup), FuzzyThreshold);
      if best.Some? && best.value.1 != [] {
        data := Some(best.value.0);
      }
    }
  }

  // ---------------------------------------------------------------- enrichment

  datatype Enriched = Enriched(card: CardInfo, quantity: int, section: Section)

  /** `parse_and_validate_decklist`'s result. */
  datatype Validation = Validation(cardDetails: seq<Enriched>, mainboardCount: int, sideboardCount: int, errors: seq<string>)

  /** One card of the enrichment loop. */
  function EnrichStep(v: Validation, c: ParsedCard, data: Option<CardInfo>): Validation
  {
    match data
    case Some(d) =>
      var e := Enriched(d, c.quantity, c.section);
      if c.section == Mainboard then Validation(v.cardDetails + [e], v.mainboardCount + c.quantity, v.sideboardCount, v.errors)
      else Validation(v.cardDetails + [e], v.mainboardCount, v.sideboardCount + c.quantity, v.errors)
    case None => Validation(v.cardDetails, v.mainboardCount, v.sideboardCount, v.errors + [c.cardName])
  }

  /** The match found for each parsed card. */
  function Matches(lk: Lookup, cards: seq<ParsedCard>): (r: seq<Option<CardInfo>>)
    ensures |r| == |cards|
    ensures forall i :: 0 <= i < |cards| ==> r[i] == CardData(lk, cards[i].cardName)
  {
    seq(|cards|, i requires 0 <= i < |cards| => CardData(lk, cards[i].cardName))
  }

  /** The enrichment loop over the parsed cards, given the match found for each. */
  function EnrichWith(cards: seq<ParsedCard>, data: seq<Option<CardInfo>>): Validation
    requires |data| == |cards|
  {
    if cards == [] then Validation([], 0, 0, [])
    else EnrichStep(EnrichWith(cards[..|cards| - 1], data[..|cards| - 1]), cards[|cards| - 1], data[|cards| - 1])
  }

  /** The enrichment loop over the parsed cards. */
  function Enrich(lk: Lookup, cards: seq<ParsedCard>): Validation
  {
    EnrichWith(cards, Matches(lk, cards))
  }

  /** The quantities of the enriched cards of a section, added up. */
  function QuantitySum(es: seq<Enriched>, s: Section): int
  {
    if es == [] then 0
    else QuantitySum(es[..|es| - 1], s) + (if es[|es| - 1].section == s then es[|es| - 1].quantity else 0)
  }

  /** Every parsed card ends up either enriched or reported, never both. */
  lemma {:induction false} EnrichAccounts(cards: seq<ParsedCard>, data: seq<Option<CardInfo>>)
    requires |data| == |cards|
    ensures |EnrichWith(cards, data).cardDetails| + |EnrichWith(cards, data).errors| == |cards|
  {
    if cards != [] {
      EnrichAccounts(cards[..|cards| - 1], data[..|cards| - 1]);
    }
  }

  /** An enriched card carries the data matched for a parsed card, and that card's quantity and section. */
  lemma {:induction false} EnrichDetails(cards: seq<ParsedCard>, data: seq<Option<CardInfo>>)
    requires |data| == |cards|
    ensures forall e :: e in EnrichWith(cards, data).cardDetails ==>
      exists k :: 0 <= k < |cards| && data[k] == Some(e.card)
        && e.quantity == cards[k].quantity && e.section == cards[k].section
  {
    if cards != [] {
      var n := |cards| - 1;
      EnrichDetails(cards[..n], data[..n]);
      var prev := EnrichWith(cards[..n], data[..n]).cardDetails;
      forall e | e in EnrichWith(cards, data).cardDetails
        ensures exists k :: (0 <= k < |cards| && data[k] == Some(e.card)
          && e.quantity == cards[k].quantity && e.section == cards[k].section)
      {
        if e in prev {
          var k :| 0 <= k < n && data[..n][k] == Some(e.card)
            && e.quantity == cards[..n][k].quantity && e.section == cards[..n][k].section;
          assert data[k] == Some(e.card) && cards[k] == cards[..n][k];
        } else {
          assert data[n] == Some(e.card) && e.quantity == cards[n].quantity && e.section == cards[n].section;
        }
      }
    }
  }

  /** A reported name is that of a parsed card no match was found for. */
  lemma {:induction false} EnrichErrors(cards: seq<ParsedCard>, data: seq<Option<CardInfo>>)
    requires |data| == |cards|
    ensures forall name :: name in EnrichWith(cards, data).errors ==>
      exists k :: 0 <= k < |cards| && cards[k].cardName == name && data[k].None?
  {
    if cards != [] {
      var n := |cards| - 1;
      EnrichErrors(cards[..n], data[..n]);
      var prev := EnrichWith(cards[..n], data[..n]).errors;
      forall name | name in EnrichWith(cards, data).errors
        ensures exists k :: 0 <= k < |cards| && cards[k].cardName == name && data[k].None?
      {
        if name in prev {
          var k :| 0 <= k < n && cards[..n][k].cardName == name && data[..n][k].None?;
          assert data[k] == data[..n][k] && cards[k] == cards[..n][k];
        } else {
          assert cards[n].cardName == name && data[n].None?;
        }
      }
    }
  }

  /** The mainboard and sideboard counts are the quantities of the enriched cards of each section. */
  lemma {:induction false} EnrichCounts(cards: seq<ParsedCard>, data: seq<Option<CardInfo>>)
    requires |data| == |cards|
    ensures var v := EnrichWith(cards, data);
      v.mainboardCount == QuantitySum(v.cardDetails, Mainboard)
      && v.sideboardCount == QuantitySum(v.cardDetails, Sideboard)
  {
    if cards != [] {
      var n := |cards| - 1;
      EnrichCounts(cards[..n], data[..n]);
      var prev := EnrichWith(cards[..n], data[..n]);
      var v := EnrichWith(cards, data);
      if data[n].Some? {
        assert v.cardDetails[..|v.cardDetails| - 1] == prev.cardDetails;
      }
    }
  }

  lemma EnrichPrefix(cards: seq<ParsedCard>, data: seq<Option<CardInfo>>, i: nat)
    requires |data| == |cards| && i < |cards|
    ensures EnrichWith(cards[..i + 1], data[..i + 1]) == EnrichStep(EnrichWith(cards[..i], data[..i]), cards[i], data[i])
  {
    assert cards[..i + 1][..i] == cards[..i];
    assert data[..i + 1][..i] == data[..i];
  }

  /** The loop over the parsed cards: match each one, then enrich it or report it. */
  method EnrichCards(lookup: Lookup, parsed: seq<ParsedCard>) returns (v: Validation)
    ensures v == Enrich(lookup, parsed)
  {
    var details: seq<Enriched> := [];
    var errors: seq<string> := [];
    var mainboardCount := 0;
    var sideboardCount := 0;
    ghost var matches := Matches(lookup, parsed);
    var i := 0;
    while i < |parsed|
      invariant 0 <= i <= |parsed|
      invariant Validation(details, mainboardCount, sideboardCount, errors) == EnrichWith(parsed[..i], matches[..i])
    {
      EnrichPrefix(parsed, matches, i);
      var data := MatchCard(lookup, parsed[i].cardName);
      details, mainboardCount, sideboardCount, errors := EnrichOne(parsed[i], data, details, mainboardCount, sideboardCount, errors);
      i := i + 1;
    }
    assert parsed[..i] == parsed && matches[..i] == matches;
    v := Validation(details, mainboardCount, sideboardCount, errors);
  }

  /** One pass of the loop after the match: the card is enriched and counted, or reported. */
  method EnrichOne(card: ParsedCard, data: Option<CardInfo>, details0: seq<Enriched>, main0: int, side0: int, errors0: seq<string>)
    returns (details: seq<Enriched>, mainboardCount: int, sideboardCount: int, errors: seq<string>)
    ensures Validation(details, mainboardCount, sideboardCount, errors)
      == EnrichStep(Validation(details0, main0, side0, errors0), card, data)
  {
    details, mainboardCount, sideboardCount, errors := details0, main0, side0, errors0;
    match data
    case Some(d) =>
      details := details + [Enriched(d, card.quantity, card.section)];
      if card.section == Mainboard {
        mainboardCount := mainboardCount + card.quantity;
      } else {
        sideboardCount := sideboardCount + card.quantity;
      }
    case None =>
      errors := errors + [card.cardName];
  }

  /**
   * `parse_and_validate_decklist` after its query: `rows` are the rows the cards query
   * returned. An empty parse reports one error and nothing else.
   */
  method ParseAndValidate(decklist: string, rows: seq<CardInfo>) returns (v: Validation)
    ensures UtilsDecklist.Parse(decklist) == [] ==> v == Validation([], 0, 0, [EmptyDecklist])
    ensures UtilsDecklist.Parse(decklist) != [] ==> v == Enrich(LookupOf(rows, NormalizedName), UtilsDecklist.Parse(decklist))
  {
    var parsed := UtilsDecklist.ParseDecklist(decklist);
    if parsed == [] {
      return Validation([], 0, 0, [EmptyDecklist]);
    }
    var lookup := BuildLookup(rows);
    v := EnrichCards(lookup, parsed);
  }

  // ---------------------------------------------------------------- the cards query

  /** The table's rows whose lower-cased name is one of `names`, in table order: `WHERE LOWER(name) = ANY(names)`. */
  function QueryRows(table: seq<CardInfo>, names: seq<string>): (r: seq<CardInfo>)
    ensures forall x :: x in r <==> x in table && Lower(x.name) in names
  {
    if table == [] then []
    else
      var init := table[..|table| - 1];
      var last := table[|table| - 1];
      assert table == init + [last];
      QueryRows(init, names) + if Lower(last.name) in names then [last] else []
  }

  /** The parsed cards' names, normalised, as the query is given them. */
  function QueryNames(parsed: seq<ParsedCard>): (r: seq<string>)
    ensures |r| == |parsed|
    ensures forall i :: 0 <= i < |parsed| ==> r[i] == NormalizeCardName(parsed[i].cardName)
  {
    MapSeq(parsed, (c: ParsedCard) => NormalizeCardName(c.cardName))
  }

  /**
   * As written, normalising keeps a name's case while the column is lower-cased, so a
   * tidy name with a capital letter ("Lightning Bolt") finds no row at all, not even the
   * row carrying exactly that name.
   */
  lemma CapitalisedNameFindsNoRow(table: seq<CardInfo>, name: string)
    requires Tidy(name) && '\\' !in name
    requires exists i :: 0 <= i < |name| && IsUpper(name[i])
    ensures NormalizeCardName(name) == name
    ensures QueryRows(table, [NormalizeCardName(name)]) == []
  {
    TidyIsFixedPoint(name);
    var i :| 0 <= i < |name| && IsUpper(name[i]);
    var r := QueryRows(table, [name]);
    if r != [] {
      assert Lower(r[0].name) in [name];
      LowerNotUpper(r[0].name, name, i);
    }
  }

  lemma LowerNotUpper(s: string, name: string, i: int)
    requires Lower(s) == name && 0 <= i < |name|
    ensures !IsUpper(name[i])
  {
    assert name[i] == LowerChar(s[i]);
  }

  /** The evidently intended query: the names lower-cased as well, so that case does not matter. */
  function QueryRowsFolded(table: seq<CardInfo>, names: seq<string>): (r: seq<CardInfo>)
    ensures forall x :: x in r <==> x in table && exists n :: n in names && EqIgnoreCase(x.name, n)
  {
    LoweredNames(names);
    QueryRows(table, MapSeq(names, Lower))
  }

  /** A name lower-cases to one of the lowered names exactly when it equals one of the names up to case. */
  lemma LoweredNames(names: seq<string>)
    ensures forall x :: Lower(x) in MapSeq(names, Lower) <==> exists n :: n in names && EqIgnoreCase(x, n)
  {
    var lowered := MapSeq(names, Lower);
    forall x
      ensures Lower(x) in lowered <==> exists n :: n in names && EqIgnoreCase(x, n)
    {
      if Lower(x) in lowered {
        var i :| 0 <= i < |lowered| && lowered[i] == Lower(x);
        assert names[i] in names && EqIgnoreCase(x, names[i]);
      }
      if exists n :: n in names && EqIgnoreCase(x, n) {
        var n :| n in names && EqIgnoreCase(x, n);
        var i :| 0 <= i < |names| && names[i] == n;
        assert lowered[i] == Lower(x);
      }
    }
  }

  /** With both sides lower-cased, the same tidy name finds the row carrying it, whatever its case. */
  lemma FoldedQueryFindsName(table: seq<CardInfo>, name: string, row: CardInfo)
    requires Tidy(name) && '\\' !in name
    requires row in table && row.name == name
    ensures row in QueryRowsFolded(table, [NormalizeCardName(name)])
  {
    TidyIsFixedPoint(name);
    assert EqIgnoreCase(row.name, NormalizeCardName(name));
  }

  /**
   * `parse_and_validate_decklist` with its query, over the cards table, using the
   * case-insensitive query: an empty parse reports one error; otherwise the cards are
   * matched against the rows the query returns for their normalised names.
   */
  method ValidateDecklist(decklist: string, table: seq<CardInfo>) returns (v: Validation)
    ensures UtilsDecklist.Parse(decklist) == [] ==> v == Validation([], 0, 0, [EmptyDecklist])
    ensures UtilsDecklist.Parse(decklist) != [] ==>
      v == Enrich(LookupOf(QueryRowsFolded(table, QueryNames(UtilsDecklist.Parse(decklist))), NormalizedName), UtilsDecklist.Parse(decklist))
  {
    var parsed := UtilsDecklist.ParseDecklist(decklist);
    if parsed == [] {
      return Validation([], 0, 0, [EmptyDecklist]);
    }
    var rows := QueryRowsFolded(table, QueryNames(parsed));
    var lookup := BuildLookup(rows);
    v := EnrichCards(lookup, parsed);
  }

  // ---------------------------------------------------------------- matchup statistics

  datatype MatchupRow = MatchupRow(opponent: string, winRate: Option<real>, matchCount: int)

  datatype MatchupStats = NoMatchupData | Rows(rows: seq<MatchupRow>)

  function OpponentOf(r: MatchupRow): string { r.opponent }

  /** The sort key: the match count (the matrix never holds a null count). */
  function CountKey(r: MatchupRow): real { r.matchCount as real }

  /** A row carries the cell of its opponent. */
  predicate CarriesCell(r: MatchupRow, row: map<string, MetaAnalysis.Cell>)
  {
    r.opponent in row && r.winRate == row[r.opponent].winRate && r.matchCount == row[r.opponent].matchCount
  }

  /** The rows of a matrix row: one per opponent, each carrying that opponent's cell. */
  ghost predicate RowsOf(rows: seq<MatchupRow>, row: map<string, MetaAnalysis.Cell>)
  {
    DistinctBy(rows, OpponentOf) && Projections(rows, OpponentOf) == row.Keys
    && forall i :: 0 <= i < |rows| ==> CarriesCell(rows[i], row)
  }

  /** The loop over `matrix[archetype].items()`, in whatever order the dictionary yields. */
  method CollectRow(row: map<string, MetaAnalysis.Cell>) returns (rows: seq<MatchupRow>)
    ensures RowsOf(rows, row)
  {
    rows := [];
    var remaining := row.Keys;
    while remaining != {}
      invariant remaining <= row.Keys
      invariant DistinctBy(rows, OpponentOf)
      invariant Projections(rows, OpponentOf) == row.Keys - remaining
      invariant forall i :: 0 <= i < |rows| ==> CarriesCell(rows[i], row)
      decreases |remaining|
    {
      var o :| o in remaining;
      var r := MatchupRow(o, row[o].winRate, row[o].matchCount);
      ProjectionsSnoc(rows, r, OpponentOf);
      var next := rows + [r];
      assert forall i :: 0 <= i < |rows| ==> next[i] == rows[i];
      assert next[|rows|] == r;
      rows := next;
      remaining := remaining - {o};
    }
  }

  /** Sorting the rows keeps them one per opponent with that opponent's cell. */
  lemma SortKeepsRowsOf(rows: seq<MatchupRow>, row: map<string, MetaAnalysis.Cell>)
    requires RowsOf(rows, row)
    ensures RowsOf(SortDesc(rows, CountKey), row) && SortedDesc(SortDesc(rows, CountKey), CountKey)
  {
    SortDescSorted(rows, CountKey);
    SortKeepsDistinct(rows, CountKey, OpponentOf);
    SortKeeps(rows, CountKey, r => CarriesCell(r, row), OpponentOf);
  }

  /**
   * `get_deck_matchup_stats` after fetching the matrix: no data for an empty matrix, no
   * rows for an archetype the matrix lacks, and otherwise one row per opponent with that
   * cell's values, most-played first.
   */
  method DeckMatchupStats(archetype: string, matrix: MetaAnalysis.Matrix) returns (r: MatchupStats)
    ensures matrix == map[] <==> r == NoMatchupData
    ensures matrix != map[] && archetype !in matrix ==> r == Rows([])
    ensures matrix != map[] && archetype in matrix ==>
      r.Rows? && SortedDesc(r.rows, CountKey) && RowsOf(r.rows, matrix[archetype])
  {
    if matrix == map[] {
      return NoMatchupData;
    }
    if archetype !in matrix {
      return Rows([]);
    }
    var collected := CollectRow(matrix[archetype]);
    SortKeepsRowsOf(collected, matrix[archetype]);
    r := Rows(SortDesc(collected, CountKey));
  }

  // ---------------------------------------------------------------- the coaching prompt

  /** Python's `str()` of an integer. */
  function DecimalString(n: int): (r: string)
    ensures r != []
    decreases if n < 0 then -n + 1 else n
  {
    if n < 0 then "-" + DecimalString(-n)
    else if n < 10 then [(48 + n) as char]
    else DecimalString(n / 10) + [(48 + n % 10) as char]
  }

  /** Reading back the digits of a non-negative number gives the number. */
  lemma {:induction false} DecimalStringRoundTrip(n: int)
    requires n >= 0
    ensures forall i :: 0 <= i < |DecimalString(n)| ==> IsDigit(DecimalString(n)[i])
    ensures DigitsValue(DecimalString(n)) == n
  {
    if n >= 10 {
      DecimalStringRoundTrip(n / 10);
      var d := DecimalString(n);
      assert d[..|d| - 1] == DecimalString(n / 10);
    }
  }

  /**
   * A dictionary value as an f-string renders it: `str(v)`. Floats, lists and objects
   * use the interpreter's own text for them, given as `str`.
   */
  function Render(j: Json, str: Json -> string): (r: string)
    ensures j.JStr? ==> r == j.s
    ensures j.JNull? || j.JBool? || j.JInt? ==> r != []
    ensures j.JNull? ==> r == "None"
    ensures j.JBool? ==> r == (if j.b then "True" else "False")
    ensures j.JInt? ==> r == DecimalString(j.i)
    ensures (j.JReal? || j.JList? || j.JObject?) ==> r == str(j)
  {
    match j
    case JNull => "None"
    case JBool(b) => if b then "True" else "False"
    case JInt(i) => DecimalString(i)
    case JStr(s) => s
    case _ => str(j)
  }

  /** The displayed fields, with 1, "Unknown" and "" for missing keys. */
  function Quantity(card: seq<(string, Json)>): Json { GetOr(card, "quantity", JInt(1)) }

  function Name(card: seq<(string, Json)>): Json { GetOr(card, "name", JStr("Unknown")) }

  function TypeLine(card: seq<(string, Json)>): Json { GetOr(card, "type_line", JStr("")) }

  /** `"  {quantity}x {name} (`: the line up to the type. */
  function LineHead(quantity: Json, name: Json, str: Json -> string): (h: string)
    ensures |h| >= 2 && h[..2] == "  "
  {
    var tail := Render(quantity, str) + "x " + Render(name, str) + " (";
    assert ("  " + tail)[..2] == "  ";
    "  " + tail
  }

  /** `"  {quantity}x {name} ({type_line})"`. */
  function CardLine(card: seq<(string, Json)>, str: Json -> string): (r: string)
    ensures StartsWith(r, "  ") && EndsWith(r, ")")
  {
    var head := LineHead(Quantity(card), Name(card), str);
    var typeText := Render(TypeLine(card), str);
    Bracketed(head, typeText);
    head + typeText + ")"
  }

  /** A line that opens with two spaces and closes with `)`. */
  lemma Bracketed(head: string, typeText: string)
    requires |head| >= 2 && head[..2] == "  "
    ensures StartsWith(head + typeText + ")", "  ") && EndsWith(head + typeText + ")", ")")
  {
    var r := head + typeText + ")";
    assert r[..2] == head[..2];
    assert r[|r| - 1..] == ")";
  }

  function CardLines(cards: seq<seq<(string, Json)>>, str: Json -> string): (r: seq<string>)
  {
    MapSeq(cards, c => CardLine(c, str))
  }

  /** `_format_card_list`: one line per card, joined with newlines. */
  method FormatCardList(cards: seq<seq<(string, Json)>>, str: Json -> string) returns (text: string)
    ensures text == Join(CardLines(cards, str), "\n")
  {
    var lines: seq<string> := [];
    var i := 0;
    while i < |cards|
      invariant 0 <= i <= |cards|
      invariant lines == MapSeq(cards[..i], c => CardLine(c, str))
    {
      MapSeqSnoc(cards, c => CardLine(c, str), i);
      lines := lines + [CardLine(cards[i], str)];
      i := i + 1;
    }
    assert cards[..i] == cards;
    text := Join(lines, "\n");
  }

  /** A card missing its quantity and name is shown as one copy of "Unknown". */
  lemma CardLineDefaults(card: seq<(string, Json)>, str: Json -> string)
    requires "quantity" !in Keys(card) && "name" !in Keys(card)
    ensures Quantity(card) == JInt(1) && Name(card) == JStr("Unknown")
    ensures StartsWith(CardLine(card, str), "  1x Unknown (")
  {
    assert DecimalString(1) == "1";
    var head := LineHead(JInt(1), JStr("Unknown"), str);
    assert head == "  1x Unknown (";
    var rest := Render(TypeLine(card), str) + ")";
    assert CardLine(card, str) == head + rest;
    assert (head + rest)[..|head|] == head;
  }

  lemma {:induction false} FirstIndexAt(s: string, c: char, k: nat)
    requires k < |s| && s[k] == c && c !in s[..k]
    ensures FirstIndex(s, c) == k
  {
    if s[0] != c {
      assert k > 0;
      assert s[1..][..k - 1] == s[1..k];
      assert forall x :: x in s[1..k] ==> x in s[..k];
      FirstIndexAt(s[1..], c, k - 1);
    }
  }

  lemma SplitFirst(p: string, t: string)
    requires '\n' !in p
    ensures Split(p + "\n" + t, '\n') == [p] + Split(t, '\n')
  {
    var s := p + "\n" + t;
    var n := |p|;
    assert s[..n] == p;
    assert s[n] == '\n';
    FirstIndexAt(s, '\n', n);
    assert s[n + 1..] == t;
  }

  /**
   * Splitting at newlines undoes joining with them, when no part holds one: a formatted
   * card list whose fields hold no newline splits back into exactly its card lines.
   */
  lemma {:induction false} SplitJoin(parts: seq<string>)
    requires |parts| >= 1
    requires forall i :: 0 <= i < |parts| ==> '\n' !in parts[i]
    ensures Split(Join(parts, "\n"), '\n') == parts
  {
    if |parts| > 1 {
      SplitJoin(parts[1..]);
      SplitFirst(parts[0], Join(parts[1..], "\n"));
      assert parts == [parts[0]] + parts[1..];
    }
  }

  /** `[c for c in card_details if c.get("section") == section]`. */
  function InSection(cards: seq<seq<(string, Json)>>, section: string): (r: seq<seq<(string, Json)>>)
    ensures |r| <= |cards|
  {
    if cards == [] then []
    else
      var c := cards[|cards| - 1];
      InSection(cards[..|cards| - 1], section) + (if GetKey(c, "section") == Some(JStr(section)) then [c] else [])
  }

  /** The cards whose section is neither "mainboard" nor "sideboard" (the prompt shows them in neither list). */
  function Unsectioned(cards: seq<seq<(string, Json)>>): seq<seq<(string, Json)>>
  {
    if cards == [] then []
    else
      var c := cards[|cards| - 1];
      Unsectioned(cards[..|cards| - 1])
      + (if GetKey(c, "section") != Some(JStr("mainboard")) && GetKey(c, "section") != Some(JStr("sideboard")) then [c] else [])
  }

  /**
   * The prompt's two lists split the card details: every card is in the mainboard list,
   * the sideboard list, or (without a recognised section) in neither, and in only one.
   */
  lemma {:induction false} SectionsPartition(cards: seq<seq<(string, Json)>>)
    ensures |InSection(cards, "mainboard")| + |InSection(cards, "sideboard")| + |Unsectioned(cards)| == |cards|
    ensures forall c :: c in InSection(cards, "mainboard") ==> c in cards && GetKey(c, "section") == Some(JStr("mainboard"))
    ensures forall c :: c in InSection(cards, "sideboard") ==> c in cards && GetKey(c, "section") == Some(JStr("sideboard"))
  {
    if cards != [] {
      SectionsPartition(cards[..|cards| - 1]);
      assert forall c :: c in cards[..|cards| - 1] ==> c in cards;
    }
  }
}
