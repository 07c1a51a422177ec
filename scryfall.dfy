/**
 * The Scryfall transforms: rulings joined to oracle cards by `oracle_id`, ruling
 * comments concatenated into one text, and an oracle card mapped to a `cards` row.
 * Cards and rulings are JSON objects, written as their key/value entries.
 */
module Scryfall {
  import opened Common

  type Dict = seq<(string, Json)>

  /** `d.get("oracle_id")`. */
  function OracleId(d: Dict): Json
  {
    GetOr(d, "oracle_id", JNull)
  }

  /** `ruling.get("comment", "")`. */
  function Comment(ruling: Dict): Json
  {
    GetOr(ruling, "comment", JStr(""))
  }

  /** Whether a ruling is filed under `oid`: its oracle id is truthy and equal to it. */
  predicate FiledUnder(ruling: Dict, oid: Json)
  {
    Truthy(OracleId(ruling)) && OracleId(ruling) == oid
  }

  /** The comments of the rulings filed under `oid`, in input order. */
  function CommentsFor(rulings: seq<Dict>, oid: Json): (r: seq<Json>)
    ensures |r| <= |rulings|
  {
    if rulings == [] then []
    else
      var last := rulings[|rulings| - 1];
      CommentsFor(rulings[..|rulings| - 1], oid) + (if FiledUnder(last, oid) then [Comment(last)] else [])
  }

  /** The rulings list a card receives: those filed under its truthy oracle id, else none. */
  function CardRulings(card: Dict, rulings: seq<Dict>): seq<Json>
  {
    var oid := OracleId(card);
    if Truthy(oid) then CommentsFor(rulings, oid) else []
  }

  /** A copy of the card with the key "rulings" set to its rulings list. */
  function WithRulings(card: Dict, rulings: seq<Dict>): Dict
  {
    SetKey(card, "rulings", JList(CardRulings(card, rulings)))
  }

  /** The joined copies of `cards`, in order. */
  function Joined(cards: seq<Dict>, rulings: seq<Dict>): (r: seq<Dict>)
    ensures |r| == |cards|
  {
    if cards == [] then []
    else Joined(cards[..|cards| - 1], rulings) + [WithRulings(cards[|cards| - 1], rulings)]
  }

  /** The joined list keeps the cards' order: entry i is card i with its rulings. */
  lemma {:induction false} JoinedInOrder(cards: seq<Dict>, rulings: seq<Dict>, i: int)
    requires 0 <= i < |cards|
    ensures Joined(cards, rulings)[i] == WithRulings(cards[i], rulings)
  {
    if i < |cards| - 1 {
      JoinedInOrder(cards[..|cards| - 1], rulings, i);
    }
  }

  /**
   * Using the dictionary's truthy oracle id as a key raises `TypeError`: the id is a list
   * or an object, which Python cannot hash.
   */
  predicate UnhashableId(d: Dict)
  {
    Truthy(OracleId(d)) && !Hashable(OracleId(d))
  }

  /** Some dictionary of the list has an unhashable truthy oracle id. */
  predicate SomeUnhashableId(ds: seq<Dict>)
  {
    ds != [] && (SomeUnhashableId(ds[..|ds| - 1]) || UnhashableId(ds[|ds| - 1]))
  }

  /** The list holds an unhashable truthy oracle id exactly when one of its entries has one. */
  lemma {:induction false} SomeUnhashableIdIff(ds: seq<Dict>)
    ensures SomeUnhashableId(ds) <==> exists i :: 0 <= i < |ds| && UnhashableId(ds[i])
  {
    if ds != [] {
      var init := ds[..|ds| - 1];
      SomeUnhashableIdIff(init);
      assert forall i :: 0 <= i < |init| ==> init[i] == ds[i];
    }
  }

  /** An unhashable id in a prefix is one in the whole list. */
  lemma {:induction false} PrefixRaises(ds: seq<Dict>, n: int)
    requires 0 <= n <= |ds|
    requires SomeUnhashableId(ds[..n])
    ensures SomeUnhashableId(ds)
    decreases |ds| - n
  {
    if n < |ds| {
      assert ds[..n + 1][..n] == ds[..n];
      PrefixRaises(ds, n + 1);
    } else {
      assert ds[..n] == ds;
    }
  }

  /** The join raises: a ruling's or a card's truthy oracle id cannot be hashed. */
  predicate JoinRaises(cards: seq<Dict>, rulings: seq<Dict>)
  {
    SomeUnhashableId(rulings) || SomeUnhashableId(cards)
  }

  /**
   * `join_cards_with_rulings`: files the comments by oracle id, then copies every card
   * with its list attached. None when a key test raises.
   */
  method JoinCardsWithRulings(cards: seq<Dict>, rulings: seq<Dict>) returns (out: Option<seq<Dict>>)
    ensures out.None? <==> JoinRaises(cards, rulings)
    ensures out.Some? ==> out.value == Joined(cards, rulings)
  {
    var filed := FileComments(rulings);
    if filed.None? {
      return None;
    }
    var byOracle := filed.value;
    var joined := [];
    var j := 0;
    while j < |cards|
      invariant 0 <= j <= |cards|
      invariant joined == Joined(cards[..j], rulings)
      invariant !SomeUnhashableId(cards[..j])
    {
      var copy := Attach(cards[j], byOracle, rulings);
      assert cards[..j + 1][..j] == cards[..j];
      if copy.None? {
        assert UnhashableId(cards[..j + 1][j]);
        PrefixRaises(cards, j + 1);
        return None;
      }
      joined := joined + [copy.value];
      j := j + 1;
    }
    assert cards[..j] == cards;
    out := Some(joined);
  }

  /**
   * The second loop's body: the card copied with the list filed under its truthy oracle
   * id; None when that id cannot be hashed, where the `in` test raises.
   */
  method Attach(card: Dict, byOracle: map<Json, seq<Json>>, ghost rulings: seq<Dict>) returns (copy: Option<Dict>)
    requires forall oid {:trigger CommentsFor(rulings, oid)} :: Truthy(oid) && Hashable(oid) ==> CommentsFor(rulings, oid) == Lookup(byOracle, oid)
    ensures copy.None? <==> UnhashableId(card)
    ensures copy.Some? ==> copy.value == WithRulings(card, rulings)
  {
    var oid := OracleId(card);
    if Truthy(oid) && !Hashable(oid) {
      return None;
    }
    var list: seq<Json> := [];
    if Truthy(oid) && oid in byOracle {
      list := byOracle[oid];
    }
    assert list == CardRulings(card, rulings);
    copy := Some(SetKey(card, "rulings", JList(list)));
  }

  /** The list filed under `oid`, or the empty list. */
  function Lookup(byOracle: map<Json, seq<Json>>, oid: Json): seq<Json>
  {
    if oid in byOracle then byOracle[oid] else []
  }

  /**
   * The first loop: each comment is appended to the list of its ruling's truthy oracle
   * id. None when such an id cannot be hashed, where the `not in` test raises.
   */
  method FileComments(rulings: seq<Dict>) returns (filed: Option<map<Json, seq<Json>>>)
    ensures filed.None? <==> SomeUnhashableId(rulings)
    ensures filed.Some? ==> forall oid {:trigger CommentsFor(rulings, oid)} :: Truthy(oid) && Hashable(oid) ==>
      CommentsFor(rulings, oid) == Lookup(filed.value, oid)
  {
    var byOracle: map<Json, seq<Json>> := map[];
    var i := 0;
    while i < |rulings|
      invariant 0 <= i <= |rulings|
      invariant !SomeUnhashableId(rulings[..i])
      invariant forall oid {:trigger Lookup(byOracle, oid)} :: Truthy(oid) ==>
        CommentsFor(rulings[..i], oid) == Lookup(byOracle, oid)
    {
      ghost var before := byOracle;
      var oid := OracleId(rulings[i]);
      assert rulings[..i + 1][..i] == rulings[..i];
      if Truthy(oid) {
        if !Hashable(oid) {
          assert UnhashableId(rulings[..i + 1][i]);
          PrefixRaises(rulings, i + 1);
          return None;
        }
        var list := if oid in byOracle then byOracle[oid] else [];
        byOracle := byOracle[oid := list + [Comment(rulings[i])]];
      }
      FileStep(rulings, i, before, byOracle);
      i := i + 1;
    }
    assert rulings[..i] == rulings;
    forall o | Truthy(o)
      ensures CommentsFor(rulings, o) == Lookup(byOracle, o)
    {
      assert CommentsFor(rulings[..i], o) == Lookup(byOracle, o);
    }
    filed := Some(byOracle);
  }

  /** One ruling filed: the lists still agree with the comments of the rulings seen so far. */
  lemma FileStep(rulings: seq<Dict>, i: int, before: map<Json, seq<Json>>, after: map<Json, seq<Json>>)
    requires 0 <= i < |rulings|
    requires forall oid {:trigger Lookup(before, oid)} :: Truthy(oid) ==>
      CommentsFor(rulings[..i], oid) == Lookup(before, oid)
    requires after == (if Truthy(OracleId(rulings[i]))
      then before[OracleId(rulings[i]) := Lookup(before, OracleId(rulings[i])) + [Comment(rulings[i])]]
      else before)
    ensures forall oid {:trigger Lookup(after, oid)} :: Truthy(oid) ==>
      CommentsFor(rulings[..i + 1], oid) == Lookup(after, oid)
  {
    forall oid | Truthy(oid)
      ensures CommentsFor(rulings[..i + 1], oid) == Lookup(after, oid)
    {
      assert rulings[..i + 1][..i] == rulings[..i];
      assert CommentsFor(rulings[..i], oid) == Lookup(before, oid);
    }
  }

  /** Every joined card has a "rulings" list, and every other key keeps its value. */
  lemma JoinedCardShape(card: Dict, rulings: seq<Dict>)
    ensures GetKey(WithRulings(card, rulings), "rulings") == Some(JList(CardRulings(card, rulings)))
    ensures forall k :: k != "rulings" ==> GetKey(WithRulings(card, rulings), k) == GetKey(card, k)
  {
  }

  /** Filing is order preserving: the comments of two runs of rulings are concatenated. */
  lemma {:induction false} CommentsForConcat(a: seq<Dict>, b: seq<Dict>, oid: Json)
    ensures CommentsFor(a + b, oid) == CommentsFor(a, oid) + CommentsFor(b, oid)
    decreases |b|
  {
    if b == [] {
      assert a + b == a;
    } else {
      var b0 := b[..|b| - 1];
      var t := b[|b| - 1];
      CommentsForConcat(a, b0, oid);
      InitLast(b);
      ConcatAssoc(a, b0, [t]);
      SnocInit(a + b0, t);
      ConcatAssoc(CommentsFor(a, oid), CommentsFor(b0, oid), if FiledUnder(t, oid) then [Comment(t)] else []);
    }
  }

  /** Every comment a card receives belongs to a ruling filed under that card's oracle id. */
  lemma {:induction false} CommentsComeFromFiledRulings(rulings: seq<Dict>, oid: Json, k: int)
    requires 0 <= k < |CommentsFor(rulings, oid)|
    ensures exists j :: 0 <= j < |rulings| && FiledUnder(rulings[j], oid) && Comment(rulings[j]) == CommentsFor(rulings, oid)[k]
  {
    var init := rulings[..|rulings| - 1];
    var last := rulings[|rulings| - 1];
    if k < |CommentsFor(init, oid)| {
      CommentsComeFromFiledRulings(init, oid, k);
      var j :| 0 <= j < |init| && FiledUnder(init[j], oid) && Comment(init[j]) == CommentsFor(init, oid)[k];
      assert rulings[j] == init[j];
    } else {
      assert FiledUnder(last, oid) && Comment(last) == CommentsFor(rulings, oid)[k];
    }
  }

  /** A card whose oracle id no ruling is filed under gets the empty list. */
  lemma {:induction false} UnmatchedCardGetsNoRulings(rulings: seq<Dict>, oid: Json)
    requires forall j :: 0 <= j < |rulings| ==> !FiledUnder(rulings[j], oid)
    ensures CommentsFor(rulings, oid) == []
  {
    if rulings != [] {
      UnmatchedCardGetsNoRulings(rulings[..|rulings| - 1], oid);
    }
  }

  /** A ruling whose oracle id is falsy is filed under nothing. */
  lemma FalsyOracleIdIgnored(rulings: seq<Dict>, r: Dict, oid: Json)
    requires !Truthy(OracleId(r))
    ensures CommentsFor(rulings + [r], oid) == CommentsFor(rulings, oid)
  {
    assert (rulings + [r])[..|rulings|] == rulings;
  }

  /**
   * The comment texts `concatenate_rulings` keeps: each falsy entry is skipped, each
   * string is stripped and kept unless blank; None when a truthy entry is not a string,
   * where `.strip()` raises.
   */
  function KeptRulings(rs: seq<Json>): (r: Option<seq<string>>)
    ensures r.Some? ==> |r.value| <= |rs|
    ensures r.Some? ==> forall k :: 0 <= k < |r.value| ==>
      r.value[k] != [] && !IsSpace(r.value[k][0]) && !IsSpace(r.value[k][|r.value[k]| - 1])
  {
    if rs == [] then Some([])
    else
      var init := KeptRulings(rs[..|rs| - 1]);
      var last := rs[|rs| - 1];
      if init.None? then None
      else if !Truthy(last) then init
      else if !last.JStr? then None
      else if Strip(last.s) == [] then init
      else Some(init.value + [Strip(last.s)])
  }

  /** Concatenating raises exactly when some truthy entry is not a string. */
  lemma {:induction false} KeptRulingsFailIff(rs: seq<Json>)
    ensures KeptRulings(rs).None? <==> exists k :: 0 <= k < |rs| && Truthy(rs[k]) && !rs[k].JStr?
  {
    if rs != [] {
      var init := rs[..|rs| - 1];
      KeptRulingsFailIff(init);
      assert forall k :: 0 <= k < |init| ==> init[k] == rs[k];
    }
  }

  /** `concatenate_rulings`: the empty list gives "", otherwise the kept texts joined by ", ". */
  function ConcatenateRulings(rs: seq<Json>): (r: Option<string>)
    ensures r.None? <==> exists k :: 0 <= k < |rs| && Truthy(rs[k]) && !rs[k].JStr?
  {
    if rs == [] then Some("")
    else
      KeptRulingsFailIff(rs);
      match KeptRulings(rs)
      case None => None
      case Some(kept) => Some(Join(kept, ", "))
  }

  /** No rulings, or only blank ones, give the empty text. */
  lemma {:induction false} BlankRulingsGiveEmptyText(rs: seq<Json>)
    requires forall k :: 0 <= k < |rs| ==> !Truthy(rs[k]) || (rs[k].JStr? && AllSpace(rs[k].s))
    ensures ConcatenateRulings(rs) == Some("")
  {
    if rs != [] {
      BlankRulingsKeepNothing(rs);
    }
  }

  lemma {:induction false} BlankRulingsKeepNothing(rs: seq<Json>)
    requires forall k :: 0 <= k < |rs| ==> !Truthy(rs[k]) || (rs[k].JStr? && AllSpace(rs[k].s))
    ensures KeptRulings(rs) == Some([])
  {
    if rs != [] {
      BlankRulingsKeepNothing(rs[..|rs| - 1]);
      var last := rs[|rs| - 1];
      if Truthy(last) {
        StripEmptyIffAllSpace(last.s);
      }
    }
  }

  /** A single non-blank ruling is its stripped text. */
  lemma SingleRuling(s: string)
    requires !AllSpace(s)
    ensures ConcatenateRulings([JStr(s)]) == Some(Strip(s))
  {
    StripEmptyIffAllSpace(s);
    assert [JStr(s)][..0] == [];
    assert Truthy(JStr(s));
    assert [] + [Strip(s)] == [Strip(s)];
    assert KeptRulings([JStr(s)]) == Some([Strip(s)]);
  }

  /** One more non-blank ruling appends its stripped text after ", ". */
  lemma AnotherRuling(rs: seq<Json>, s: string)
    requires KeptRulings(rs).Some? && KeptRulings(rs).value != []
    requires !AllSpace(s)
    ensures ConcatenateRulings(rs + [JStr(s)]) == Some(Join(KeptRulings(rs).value, ", ") + ", " + Strip(s))
  {
    StripEmptyIffAllSpace(s);
    assert (rs + [JStr(s)])[..|rs|] == rs;
    JoinAppend(KeptRulings(rs).value, Strip(s), ", ");
  }

  lemma {:induction false} JoinAppend(parts: seq<string>, x: string, sep: string)
    requires parts != []
    ensures Join(parts + [x], sep) == Join(parts, sep) + sep + x
  {
    if |parts| == 1 {
      assert (parts + [x])[1..] == [x];
    } else {
      JoinAppend(parts[1..], x, sep);
      assert (parts + [x])[1..] == parts[1..] + [x];
    }
  }

  /** A row of the `cards` table, column by column. */
  datatype CardRow = CardRow(
    cardId: Json, setCode: Json, collectorNum: Json, name: Json, oracleText: Json,
    rulings: string, typeLine: Json, manaCost: Json, cmc: Json, colorIdentity: seq<Json>,
    scryfallUri: Json)

  /**
   * The rulings column: a list is concatenated, a truthy string kept, any other truthy
   * value written with `str` (given as `repr`), a falsy value gives "".
   */
  function RulingsText(v: Json, repr: Json -> string): Option<string>
  {
    match v
    case JList(items) => ConcatenateRulings(items)
    case JStr(s) => Some(s)
    case _ => Some(if Truthy(v) then repr(v) else "")
  }

  /** `color_identity`, replaced by [] unless it is a list. */
  function ColorIdentity(card: Dict): seq<Json>
  {
    match GetOr(card, "color_identity", JList([]))
    case JList(items) => items
    case _ => []
  }

  /** `transform_card_to_db_row`; None when concatenating the rulings raises. */
  function Transform(card: Dict, repr: Json -> string): (r: Option<CardRow>)
    ensures r.None? ==> GetOr(card, "rulings", JList([])).JList?
    ensures r.Some? ==> r.value.cardId == GetOr(card, "id", JStr("")) && r.value.name == GetOr(card, "name", JStr(""))
    ensures r.Some? ==> r.value.colorIdentity == ColorIdentity(card)
  {
    match RulingsText(GetOr(card, "rulings", JList([])), repr)
    case None => None
    case Some(text) =>
      Some(CardRow(
        GetOr(card, "id", JStr("")), GetOr(card, "set", JNull), GetOr(card, "collector_number", JNull),
        GetOr(card, "name", JStr("")), GetOr(card, "oracle_text", JNull), text,
        GetOr(card, "type_line", JNull), GetOr(card, "mana_cost", JNull), GetOr(card, "cmc", JNull),
        ColorIdentity(card), GetOr(card, "scryfall_uri", JNull)))
  }

  /** The transform fails exactly when the rulings are a list holding a truthy non-string. */
  lemma TransformFailsOnlyOnBadRulings(card: Dict, repr: Json -> string)
    ensures Transform(card, repr).None? <==>
      (GetOr(card, "rulings", JList([])).JList?
       && exists k :: 0 <= k < |GetOr(card, "rulings", JList([])).items| &&
            Truthy(GetOr(card, "rulings", JList([])).items[k]) && !GetOr(card, "rulings", JList([])).items[k].JStr?)
  {
    var v := GetOr(card, "rulings", JList([]));
    if v.JList? && v.items != [] {
      KeptRulingsFailIff(v.items);
    }
  }

  /** A card without any of the keys maps to empty id and name, null columns, no rulings and no colours. */
  lemma BareCardDefaults(repr: Json -> string)
    ensures Transform([], repr) == Some(CardRow(JStr(""), JNull, JNull, JStr(""), JNull, "", JNull, JNull, JNull, [], JNull))
  {
  }

  /** A card whose rulings were joined as strings always transforms, with the concatenated text. */
  lemma JoinedCardTransforms(card: Dict, rulings: seq<Dict>, repr: Json -> string)
    requires forall j :: 0 <= j < |rulings| ==> Comment(rulings[j]).JStr?
    ensures Transform(WithRulings(card, rulings), repr).Some?
    ensures Transform(WithRulings(card, rulings), repr).value.rulings == ConcatenateRulings(CardRulings(card, rulings)).value
  {
    var list := CardRulings(card, rulings);
    CardRulingsAreStrings(card, rulings);
    var c := WithRulings(card, rulings);
    assert GetKey(c, "rulings") == Some(JList(list));
    assert RulingsText(GetOr(c, "rulings", JList([])), repr) == ConcatenateRulings(list);
    if list != [] {
      KeptRulingsFailIff(list);
    }
  }

  /** A card receives only string comments when every ruling's comment is a string. */
  lemma CardRulingsAreStrings(card: Dict, rulings: seq<Dict>)
    requires forall j :: 0 <= j < |rulings| ==> Comment(rulings[j]).JStr?
    ensures forall k :: 0 <= k < |CardRulings(card, rulings)| ==> CardRulings(card, rulings)[k].JStr?
  {
    var list := CardRulings(card, rulings);
    forall k | 0 <= k < |list|
      ensures list[k].JStr?
    {
      CommentsComeFromFiledRulings(rulings, OracleId(card), k);
    }
  }

  /** A non-list colour identity becomes the empty list; a list is kept. */
  lemma ColorIdentityIsList(card: Dict)
    ensures GetOr(card, "color_identity", JList([])).JList? ==> ColorIdentity(card) == GetOr(card, "color_identity", JList([])).items
    ensures !GetOr(card, "color_identity", JList([])).JList? ==> ColorIdentity(card) == []
  {
  }
}
