/**
 * How the tournament pipeline stores a decklist's cards. Each parsed card is looked up
 * in the cards table by five tiers in order: the exact name, the front face of a
 * double-faced card ("name // %"), its back face ("% // name"), the name ignoring case,
 * and the nearest name within edit distance 2 among the first 100000 rows. The first
 * tier with a hit decides; a card no tier finds is reported missing. The table is the
 * sequence of (card_id, name) rows in the order the database returns them.
 */
module DeckCards {
  import opened Common
  import opened DeckText
  import opened FuzzyMatch

  type CardTable = seq<(string, string)>

  const FuzzyThreshold: int := 2

  /** `SELECT card_id, name FROM cards LIMIT 100000`: the pool the nearest-name tier searches. */
  const FuzzyPool: int := 100000

  /** The four query tiers that precede the nearest-name tier. */
  datatype Tier = Exact | FrontFace | BackFace | CaseInsensitive

  predicate TierMatches(tier: Tier, wanted: string, name: string)
  {
    match tier
    case Exact => name == wanted
    case FrontFace => StartsWith(name, wanted + " // ")
    case BackFace => EndsWith(name, " // " + wanted)
    case CaseInsensitive => EqIgnoreCase(name, wanted)
  }

  /** A tier's `... LIMIT 1` query: the id of the first row it accepts. */
  function FirstHit(table: CardTable, tier: Tier, wanted: string): (r: Option<string>)
    ensures r.None? <==> forall j :: 0 <= j < |table| ==> !TierMatches(tier, wanted, table[j].1)
    ensures r.Some? ==> exists j :: 0 <= j < |table| && table[j].0 == r.value && TierMatches(tier, wanted, table[j].1)
  {
    if table == [] then None
    else if TierMatches(tier, wanted, table[0].1) then Some(table[0].0)
    else
      var r := FirstHit(table[1..], tier, wanted);
      assert forall j :: 0 <= j < |table| - 1 ==> table[1..][j] == table[j + 1];
      r
  }

  /** A tier's query returns the id of the first row it accepts. */
  lemma {:induction false} FirstHitIsFirst(table: CardTable, tier: Tier, wanted: string, j: int)
    requires 0 <= j < |table| && TierMatches(tier, wanted, table[j].1)
    requires forall i :: 0 <= i < j ==> !TierMatches(tier, wanted, table[i].1)
    ensures FirstHit(table, tier, wanted) == Some(table[j].0)
  {
    if j > 0 {
      FirstHitIsFirst(table[1..], tier, wanted, j - 1);
    }
  }

  /** The card id the five tiers give, the first tier with a hit deciding. */
  function LookupCard(table: CardTable, wanted: string): (r: Option<string>)
    ensures r.Some? ==> exists j :: 0 <= j < |table| && table[j].0 == r.value
    ensures FirstHit(table, Exact, wanted).Some? ==> r == FirstHit(table, Exact, wanted)
  {
    var exact := FirstHit(table, Exact, wanted);
    if exact.Some? then exact
    else
      var front := FirstHit(table, FrontFace, wanted);
      if front.Some? then front
      else
        var back := FirstHit(table, BackFace, wanted);
        if back.Some? then back
        else
          var folded := FirstHit(table, CaseInsensitive, wanted);
          if folded.Some? then folded
          else
            match Closest(PyTake(table, FuzzyPool), wanted, FuzzyThreshold)
            case Some(c) =>
              var pool := PyTake(table, FuzzyPool);
              assert forall k :: 0 <= k < |pool| ==> pool[k] == table[k];
              Some(c.0)
            case None => None
  }

  /** Some tier accepts row j. */
  predicate AnyTier(wanted: string, name: string)
  {
    TierMatches(Exact, wanted, name) || TierMatches(FrontFace, wanted, name)
    || TierMatches(BackFace, wanted, name) || TierMatches(CaseInsensitive, wanted, name)
  }

  /**
   * The lookup finds nothing exactly when no row is accepted by a query tier and no row
   * of the pool is within the distance; what it finds is the id of a row that one of the
   * tiers accepts.
   */
  lemma LookupSoundAndComplete(table: CardTable, wanted: string)
    ensures LookupCard(table, wanted).None? <==>
      (forall j :: 0 <= j < |table| ==> !AnyTier(wanted, table[j].1))
      && (forall j :: 0 <= j < |PyTake(table, FuzzyPool)| ==> NameDistance(wanted, table[j].1) > FuzzyThreshold)
    ensures LookupCard(table, wanted).Some? ==>
      exists j :: 0 <= j < |table| && table[j].0 == LookupCard(table, wanted).value
        && (AnyTier(wanted, table[j].1) || NameDistance(wanted, table[j].1) <= FuzzyThreshold)
  {
    if FirstHit(table, Exact, wanted).None? && FirstHit(table, FrontFace, wanted).None?
      && FirstHit(table, BackFace, wanted).None? && FirstHit(table, CaseInsensitive, wanted).None? {
      assert forall j :: 0 <= j < |table| ==> !AnyTier(wanted, table[j].1);
      var pool := PyTake(table, FuzzyPool);
      ClosestIsFirstClosest(pool, wanted, FuzzyThreshold);
      assert forall j :: 0 <= j < |pool| ==> pool[j] == table[j];
    }
  }

  /** A name stored exactly is always resolved to its first exact row, whatever the other tiers hold. */
  lemma ExactNameWins(table: CardTable, wanted: string, j: int)
    requires 0 <= j < |table| && table[j].1 == wanted
    requires forall i :: 0 <= i < j ==> table[i].1 != wanted
    ensures LookupCard(table, wanted) == Some(table[j].0)
  {
    FirstHitIsFirst(table, Exact, wanted, j);
  }

  /** The tiers for one card: each query runs only while nothing was found, then the nearest-name selection. */
  method LookupCardId(table: CardTable, wanted: string) returns (id: Option<string>)
    ensures id == LookupCard(table, wanted)
  {
    id := FirstHit(table, Exact, wanted);
    if id.None? {
      id := FirstHit(table, FrontFace, wanted);
    }
    if id.None? {
      id := FirstHit(table, BackFace, wanted);
    }
    if id.None? {
      id := FirstHit(table, CaseInsensitive, wanted);
    }
    if id.Some? {
      return;
    }
    var best := FindClosest(wanted, PyTake(table, FuzzyPool), FuzzyThreshold);
    id := if best.Some? then Some(best.value.0) else None;
  }

  /** One deck_cards row: the decklist, the card, its section and quantity. */
  datatype DeckCardRow = DeckCardRow(decklistId: int, cardId: string, section: Section, quantity: int)

  /** The rows and the missing names for parsed cards, in order. */
  function Resolve(table: CardTable, decklistId: int, cards: seq<ParsedCard>): (r: (seq<DeckCardRow>, seq<string>))
  {
    if cards == [] then ([], [])
    else
      var prev := Resolve(table, decklistId, cards[..|cards| - 1]);
      var c := cards[|cards| - 1];
      match LookupCard(table, c.cardName)
      case Some(id) => (prev.0 + [DeckCardRow(decklistId, id, c.section, c.quantity)], prev.1)
      case None => (prev.0, prev.1 + [c.cardName])
  }

  /**
   * Every parsed card ends up as exactly one row or one missing name; a row carries its
   * card's section and quantity and the id the lookup gave, and a missing name is one the
   * lookup could not resolve.
   */
  lemma {:induction false} ResolveAccounts(table: CardTable, decklistId: int, cards: seq<ParsedCard>)
    ensures |Resolve(table, decklistId, cards).0| + |Resolve(table, decklistId, cards).1| == |cards|
    ensures forall row :: row in Resolve(table, decklistId, cards).0 ==>
      row.decklistId == decklistId
      && exists c :: c in cards && LookupCard(table, c.cardName) == Some(row.cardId) && row.section == c.section && row.quantity == c.quantity
    ensures forall name :: name in Resolve(table, decklistId, cards).1 ==>
      exists c :: c in cards && c.cardName == name && LookupCard(table, name).None?
  {
    if cards != [] {
      var init := cards[..|cards| - 1];
      ResolveAccounts(table, decklistId, init);
      assert forall c :: c in init ==> c in cards;
    }
  }

  /** The loop over parsed cards. */
  method ResolveCards(table: CardTable, decklistId: int, cards: seq<ParsedCard>)
    returns (rows: seq<DeckCardRow>, missing: seq<string>)
    ensures (rows, missing) == Resolve(table, decklistId, cards)
  {
    rows := [];
    missing := [];
    var i := 0;
    while i < |cards|
      invariant 0 <= i <= |cards|
      invariant (rows, missing) == Resolve(table, decklistId, cards[..i])
    {
      assert cards[..i + 1][..i] == cards[..i];
      var id := LookupCardId(table, cards[i].cardName);
      if id.Some? {
        rows := rows + [DeckCardRow(decklistId, id.value, cards[i].section, cards[i].quantity)];
      } else {
        missing := missing + [cards[i].cardName];
      }
      i := i + 1;
    }
    assert cards[..i] == cards;
  }

  /**
   * `insert_deck_cards`. `decklistId` is the decklist found for the player (None when
   * there is none) and `parsed` the parser's cards (None when it raised). Blank text, a
   * missing decklist, a parser failure and an empty parse store nothing. `parsed` is a
   * parameter: this method does not tie it to `Parse(text)`, so any parser output is
   * covered.
   */
  method InsertDeckCards(table: CardTable, text: string, decklistId: Option<int>, parsed: Option<seq<ParsedCard>>)
    returns (rows: seq<DeckCardRow>, missing: seq<string>)
    ensures Strip(text) == [] || decklistId.None? || parsed.None? ==> rows == [] && missing == []
    ensures Strip(text) != [] && decklistId.Some? && parsed.Some? ==>
      (rows, missing) == Resolve(table, decklistId.value, parsed.value)
  {
    if text == [] || Strip(text) == [] {
      return [], [];
    }
    if decklistId.None? || parsed.None? || parsed.value == [] {
      return [], [];
    }
    rows, missing := ResolveCards(table, decklistId.value, parsed.value);
  }
}
