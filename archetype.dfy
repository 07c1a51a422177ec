/**
 * The archetype classification pipeline. For each decklist the mainboard cards are read,
 * a language model is asked for an archetype (retrying on an unreadable or invalid reply),
 * the classification is stored under an archetype group, and the decklist is pointed at
 * that group. The loads walk the decklists in batches and count what was classified and
 * what failed.
 *
 * The database and the model are parameters: `Services` gives, per decklist id, the
 * mainboard cards (None when the query raised), the reply to each attempt, and the
 * archetype group id the store returns (None when storing raised).
 */
module Archetype {
  import opened Common
  import CardsLoad

  /** The five strategy values the response model accepts. */
  const Strategies: set<string> := {"aggro", "midrange", "control", "ramp", "combo"}

  /** `insert_archetype` calls the classifier with its default of one retry. */
  const DefaultRetries: nat := 1

  const DefaultBatchSize: int := 50

  /**
   * The fields of a reply that parsed as a JSON object; None where a required field is
   * absent or of the wrong type. The optional `reasoning` is None when it has the wrong
   * type, Some(None) when it is absent or null, and Some(Some(text)) for a string.
   */
  datatype ReplyFields = ReplyFields(mainTitle: Option<string>, colorIdentity: Option<string>, strategy: Option<string>,
                                     confidence: Option<real>, reasoning: Option<Option<string>>)

  /** A validated classification. */
  datatype Classification = Classification(mainTitle: string, colorIdentity: string, strategy: string,
                                           confidence: real, reasoning: Option<string>)

  /**
   * `ArchetypeClassificationResponse(**data)`: accepted exactly when the three names are
   * present, the strategy is one of the five, the confidence lies in [0, 1] and the
   * reasoning, if given, is a string.
   */
  function Validate(f: ReplyFields): (r: Option<Classification>)
    ensures r.Some? <==> f.mainTitle.Some? && f.colorIdentity.Some? && f.strategy.Some? && f.strategy.value in Strategies
                         && f.confidence.Some? && 0.0 <= f.confidence.value <= 1.0 && f.reasoning.Some?
    ensures r.Some? ==> r.value.strategy in Strategies && 0.0 <= r.value.confidence <= 1.0
    ensures r.Some? ==> r.value.mainTitle == f.mainTitle.value && r.value.colorIdentity == f.colorIdentity.value
                        && r.value.strategy == f.strategy.value && r.value.confidence == f.confidence.value
                        && r.value.reasoning == f.reasoning.value
  {
    if f.mainTitle.Some? && f.colorIdentity.Some? && f.strategy.Some? && f.strategy.value in Strategies
       && f.confidence.Some? && 0.0 <= f.confidence.value && f.confidence.value <= 1.0 && f.reasoning.Some?
    then Some(Classification(f.mainTitle.value, f.colorIdentity.value, f.strategy.value, f.confidence.value, f.reasoning.value))
    else None
  }

  /**
   * What one attempt gets back: `Raised` when the client or the parsing raised anything
   * other than a ValueError or JSONDecodeError (a reply that is JSON but not an object,
   * which the response model rejects with a TypeError, is one); `Malformed` when the
   * text is not JSON or the client itself raised a ValueError or JSONDecodeError, both
   * caught and retried; otherwise the parsed object.
   */
  datatype Reply = Raised | Malformed | Parsed(fields: ReplyFields)

  /** An attempt whose reply is retried: not JSON, or an object that does not validate. */
  predicate Retried(r: Reply)
  {
    r.Malformed? || (r.Parsed? && Validate(r.fields).None?)
  }

  /** The classifier's result: the classification and the attempt that gave it, or an exception. */
  datatype Outcome = Valid(c: Classification, attempt: nat) | Raises

  /** The retry loop from attempt `k` on: the first attempt that validates, unless one raises first. */
  function ClassifyFrom(reply: nat -> Reply, k: nat, maxRetries: nat): Outcome
    decreases maxRetries + 1 - k
  {
    if k > maxRetries then Raises
    else match reply(k)
      case Raised => Raises
      case Malformed => if k < maxRetries then ClassifyFrom(reply, k + 1, maxRetries) else Raises
      case Parsed(f) =>
        match Validate(f)
        case Some(c) => Valid(c, k)
        case None => if k < maxRetries then ClassifyFrom(reply, k + 1, maxRetries) else Raises
  }

  /**
   * The classifier makes at most `maxRetries + 1` attempts. It returns the first reply
   * that validates when every earlier one was retried; it raises exactly when an attempt
   * raised before any validated, or when every attempt was retried.
   */
  lemma {:induction false} ClassifyIsFirstValid(reply: nat -> Reply, k: nat, maxRetries: nat)
    ensures var r := ClassifyFrom(reply, k, maxRetries);
      r.Valid? ==>
        (k <= r.attempt <= maxRetries && reply(r.attempt).Parsed?
         && Validate(reply(r.attempt).fields) == Some(r.c)
         && forall j :: k <= j < r.attempt ==> Retried(reply(j)))
    ensures var r := ClassifyFrom(reply, k, maxRetries);
      r.Raises? <==>
        (forall j :: k <= j <= maxRetries ==> Retried(reply(j)))
        || exists j :: k <= j <= maxRetries && reply(j).Raised? && forall i :: k <= i < j ==> Retried(reply(i))
    decreases maxRetries + 1 - k
  {
    if k <= maxRetries {
      ClassifyIsFirstValid(reply, k + 1, maxRetries);
      var r := ClassifyFrom(reply, k, maxRetries);
      if reply(k).Raised? {
        assert r.Raises?;
      } else if !Retried(reply(k)) {
        assert r.Valid? && r.attempt == k;
        assert !(forall j :: k <= j <= maxRetries ==> Retried(reply(j)));
      } else if k == maxRetries {
        assert r.Raises?;
      }
    }
  }

  /** A mainboard card as the cards query returns it. */
  datatype MainboardCard = MainboardCard(name: string, quantity: int)

  /**
   * `classify_decklist_llm`: the prompt cannot be built from an empty card list; then
   * attempts 0..maxRetries, each retried only on an unreadable or invalid reply.
   */
  method ClassifyDecklist(cards: seq<MainboardCard>, reply: nat -> Reply, maxRetries: nat) returns (r: Outcome)
    ensures cards == [] ==> r.Raises?
    ensures cards != [] ==> r == ClassifyFrom(reply, 0, maxRetries)
  {
    if cards == [] {
      return Raises;
    }
    var attempt := 0;
    while attempt <= maxRetries
      invariant 0 <= attempt <= maxRetries + 1
      invariant ClassifyFrom(reply, 0, maxRetries) == ClassifyFrom(reply, attempt, maxRetries)
      decreases maxRetries + 1 - attempt
    {
      match reply(attempt) {
        case Raised =>
          return Raises;
        case Malformed =>
          if attempt == maxRetries {
            return Raises;
          }
        case Parsed(f) =>
          var v := Validate(f);
          if v.Some? {
            return Valid(v.value, attempt);
          }
          if attempt == maxRetries {
            return Raises;
          }
      }
      attempt := attempt + 1;
    }
    return Raises;
  }

  /** A decklist to classify: its id, its tournament's format and start date. */
  datatype Decklist = Decklist(decklistId: int, format: string, startDate: int)

  /** The database and the model, as the pipeline sees them. */
  datatype Services = Services(
    cardsOf: int -> Option<seq<MainboardCard>>,
    reply: int -> nat -> Reply,
    store: (Decklist, Classification) -> Option<int>)

  /** What `insert_archetype` does: returns a group id or None, or lets the classifier's exception through. */
  datatype InsertResult = Returned(groupId: Option<int>) | Propagates

  /**
   * `insert_archetype`: None for an empty card list; the classifier's exception passes
   * through; otherwise the group id the store returns (None when storing raised).
   */
  method InsertArchetype(d: Decklist, cards: seq<MainboardCard>, s: Services) returns (r: InsertResult)
    ensures cards == [] ==> r == Returned(None)
    ensures cards != [] ==> (r.Propagates? <==> ClassifyFrom(s.reply(d.decklistId), 0, DefaultRetries).Raises?)
    ensures cards != [] && ClassifyFrom(s.reply(d.decklistId), 0, DefaultRetries).Valid? ==>
      r == Returned(s.store(d, ClassifyFrom(s.reply(d.decklistId), 0, DefaultRetries).c))
  {
    if cards == [] {
      return Returned(None);
    }
    var classification := ClassifyDecklist(cards, s.reply(d.decklistId), DefaultRetries);
    if classification.Raises? {
      return Propagates;
    }
    r := Returned(s.store(d, classification.c));
  }

  /** `if archetype_group_id:` — a group id other than None and 0. */
  predicate GroupTruthy(g: Option<int>)
  {
    g.Some? && g.value != 0
  }

  /**
   * The group a decklist ends up in, or None when it counts as an error: the cards query
   * raised, there are no mainboard cards, the classifier raised, or the store gave no
   * truthy id.
   */
  function GroupFor(d: Decklist, s: Services): (g: Option<int>)
    ensures g.Some? ==> g.value != 0
    ensures g.Some? ==> s.cardsOf(d.decklistId).Some? && s.cardsOf(d.decklistId).value != []
  {
    match s.cardsOf(d.decklistId)
    case None => None
    case Some(cards) =>
      if cards == [] then None
      else
        match ClassifyFrom(s.reply(d.decklistId), 0, DefaultRetries)
        case Raises => None
        case Valid(c, _) => if GroupTruthy(s.store(d, c)) then s.store(d, c) else None
  }

  /** One decklist of a batch: `classified` when it got a group (and the decklist was pointed at it). */
  method ProcessDecklist(d: Decklist, s: Services) returns (group: Option<int>)
    ensures group == GroupFor(d, s)
  {
    var cards := s.cardsOf(d.decklistId);
    if cards.None? {
      return None;
    }
    if cards.value == [] {
      return None;
    }
    var inserted := InsertArchetype(d, cards.value, s);
    if inserted.Propagates? {
      return None;
    }
    if GroupTruthy(inserted.groupId) {
      group := inserted.groupId;
    } else {
      group := None;
    }
  }

  /** `update_decklist_archetype(decklist_id, group)` calls, in order. */
  type Updates = seq<(int, int)>

  /** The counts and update calls after processing `ds` in order. */
  function Tally(ds: seq<Decklist>, s: Services): (r: (nat, nat, Updates))
    ensures r.0 + r.1 == |ds|
    ensures |r.2| == r.0
  {
    if ds == [] then (0, 0, [])
    else
      var prev := Tally(ds[..|ds| - 1], s);
      var d := ds[|ds| - 1];
      match GroupFor(d, s)
      case Some(g) => (prev.0 + 1, prev.1, prev.2 + [(d.decklistId, g)])
      case None => (prev.0, prev.1 + 1, prev.2)
  }

  /**
   * Each update call points a processed decklist at the truthy group its classification
   * stored, and a decklist without a group keeps the count of classified decklists below
   * the number of decklists.
   */
  lemma {:induction false} UpdatesMatchClassified(ds: seq<Decklist>, s: Services)
    ensures forall u :: u in Tally(ds, s).2 ==>
      u.1 != 0 && exists d :: d in ds && d.decklistId == u.0 && GroupFor(d, s) == Some(u.1)
    ensures forall d :: d in ds && GroupFor(d, s).None? ==> Tally(ds, s).0 < |ds|
  {
    if ds != [] {
      var init := ds[..|ds| - 1];
      UpdatesMatchClassified(init, s);
      assert forall d :: d in init ==> d in ds;
      var d := ds[|ds| - 1];
      forall x | x in ds && GroupFor(x, s).None?
        ensures Tally(ds, s).0 < |ds|
      {
        if x in init {
          assert Tally(init, s).0 < |init|;
        } else {
          assert x == d;
        }
      }
    }
  }

  /** The start dates seen, from `from`: `if start_date > max_timestamp: max_timestamp = start_date`. */
  function MaxStartDate(ds: seq<Decklist>, from: int): (m: int)
    ensures m >= from
    ensures forall i :: 0 <= i < |ds| ==> m >= ds[i].startDate
    ensures m == from || exists i :: 0 <= i < |ds| && m == ds[i].startDate
  {
    if ds == [] then from
    else
      var init := ds[..|ds| - 1];
      assert forall i :: 0 <= i < |init| ==> init[i] == ds[i];
      Max(MaxStartDate(init, from), ds[|ds| - 1].startDate)
  }

  /** The decklists `range(0, total, batch_size)` reaches: all of them for a positive size, none for a negative one. */
  function Reached(ds: seq<Decklist>, batchSize: int): seq<Decklist>
  {
    if batchSize > 0 then ds else []
  }

  /** The batch loop's state after a prefix of the decklists. */
  datatype Progress = Progress(classified: nat, errors: nat, updates: Updates, maxTimestamp: int)

  /** The state after processing `ds` in order, the maximum starting at `from`. */
  function ProgressOf(ds: seq<Decklist>, s: Services, from: int): Progress
  {
    var t := Tally(ds, s);
    Progress(t.0, t.1, t.2, MaxStartDate(ds, from))
  }

  /** One decklist's effect on the loop state, given the group its processing returned. */
  function Advance(p: Progress, d: Decklist, group: Option<int>): Progress
  {
    var m := if d.startDate > p.maxTimestamp then d.startDate else p.maxTimestamp;
    match group
    case Some(g) => Progress(p.classified + 1, p.errors, p.updates + [(d.decklistId, g)], m)
    case None => Progress(p.classified, p.errors + 1, p.updates, m)
  }

  lemma ProgressSnoc(ds: seq<Decklist>, d: Decklist, s: Services, from: int)
    ensures ProgressOf(ds + [d], s, from) == Advance(ProgressOf(ds, s, from), d, GroupFor(d, s))
  {
    assert (ds + [d])[..|ds|] == ds;
  }

  /** The inner loop over one batch. */
  method ProcessBatch(ghost done: seq<Decklist>, batch: seq<Decklist>, s: Services, from: int, p0: Progress) returns (p: Progress)
    requires p0 == ProgressOf(done, s, from)
    ensures p == ProgressOf(done + batch, s, from)
  {
    p := p0;
    var j := 0;
    ghost var seen := done;
    assert done + batch[..0] == done;
    while j < |batch|
      invariant 0 <= j <= |batch|
      invariant seen == done + batch[..j]
      invariant p == ProgressOf(seen, s, from)
    {
      var d := batch[j];
      ProgressSnoc(seen, d, s, from);
      ghost var before := p;
      var maxTimestamp := p.maxTimestamp;
      if d.startDate > maxTimestamp {
        maxTimestamp := d.startDate;
      }
      var group := ProcessDecklist(d, s);
      if group.Some? {
        p := Progress(p.classified + 1, p.errors, p.updates + [(d.decklistId, group.value)], maxTimestamp);
      } else {
        p := Progress(p.classified, p.errors + 1, p.updates, maxTimestamp);
      }
      assert p == Advance(before, d, group);
      PrefixSnoc(done, batch, j);
      seen := seen + [d];
      j := j + 1;
    }
    assert batch[..j] == batch;
  }

  /**
   * The batch loops: `for i in range(0, total, batch_size)` over `decklists[i:i + batch_size]`.
   * A batch size of 0 makes `range` raise (None).
   */
  method ProcessInBatches(ds: seq<Decklist>, batchSize: int, s: Services, from: int) returns (p: Option<Progress>)
    ensures batchSize == 0 <==> p.None?
    ensures p.Some? ==> p.value == ProgressOf(Reached(ds, batchSize), s, from)
  {
    if batchSize == 0 {
      return None;
    }
    var cur := ProgressOf([], s, from);
    if batchSize < 0 {
      return Some(cur);
    }
    var i := 0;
    ghost var done: seq<Decklist> := [];
    while i < |ds|
      invariant 0 <= i
      invariant done == ds[..Min(i, |ds|)]
      invariant cur == ProgressOf(done, s, from)
      decreases |ds| - i
    {
      var end := Min(i + batchSize, |ds|);
      var batch := ds[i..end];
      cur := ProcessBatch(done, batch, s, from, cur);
      PrefixSlice(ds, i, end);
      done := done + batch;
      i := i + batchSize;
    }
    assert done == ds;
    p := Some(cur);
  }

  /** The metadata an archetype load writes. */
  datatype ArchetypeMeta = ArchetypeMeta(lastTimestamp: int, objectsLoaded: nat, loadType: CardsLoad.LoadKind)

  /** The report of a load that raised: not successful, one error. */
  const Failure: CardsLoad.LoadReport := CardsLoad.LoadReport(false, 0, 0, 1)

  const Empty: CardsLoad.LoadReport := CardsLoad.LoadReport(true, 0, 0, 0)

  /**
   * `load_initial`: `decklists` is the unclassified decklists (None when the query
   * raised), `now` the clock and `metaOk` whether the load-metadata insert succeeds. No
   * decklists report success and zeros; a raising query, a batch size of 0 or a failing
   * metadata insert report failure, since the handler catches each; otherwise the report
   * counts every decklist as processed and the metadata records `now`.
   */
  method LoadInitial(decklists: Option<seq<Decklist>>, batchSize: int, s: Services, now: int, metaOk: bool)
    returns (report: CardsLoad.LoadReport, meta: Option<ArchetypeMeta>)
    ensures decklists.None? || (batchSize == 0 && decklists != Some([])) ==> report == Failure && meta.None?
    ensures decklists == Some([]) ==> report == Empty && meta.None?
    ensures decklists.Some? && decklists.value != [] && batchSize != 0 && !metaOk ==> report == Failure && meta.None?
    ensures decklists.Some? && decklists.value != [] && batchSize != 0 && metaOk ==>
      var p := ProgressOf(Reached(decklists.value, batchSize), s, 0);
      report == CardsLoad.LoadReport(true, p.classified, |decklists.value|, p.errors)
      && meta == Some(ArchetypeMeta(now, p.classified, CardsLoad.Initial))
  {
    if decklists.None? {
      return Failure, None;
    }
    if decklists.value == [] {
      return Empty, None;
    }
    var p := ProcessInBatches(decklists.value, batchSize, s, 0);
    if p.None? || !metaOk {
      return Failure, None;
    }
    meta := Some(ArchetypeMeta(now, p.value.classified, CardsLoad.Initial));
    report := CardsLoad.LoadReport(true, p.value.classified, |decklists.value|, p.value.errors);
  }

  /**
   * `load_incremental`: without a stored timestamp it is `load_initial` (over `unclassified`);
   * otherwise it processes the decklists of tournaments since then and records the latest
   * start date seen, never earlier than the stored one. A failing metadata insert reports
   * failure in both.
   */
  method LoadIncremental(last: Option<int>, since: Option<seq<Decklist>>, unclassified: Option<seq<Decklist>>,
                         batchSize: int, s: Services, now: int, metaOk: bool)
    returns (report: CardsLoad.LoadReport, meta: Option<ArchetypeMeta>)
    ensures last.None? ==>
      (unclassified.None? || (batchSize == 0 && unclassified != Some([])) ==> report == Failure && meta.None?)
      && (unclassified == Some([]) ==> report == Empty && meta.None?)
      && (unclassified.Some? && unclassified.value != [] && batchSize != 0 && !metaOk ==> report == Failure && meta.None?)
      && (unclassified.Some? && unclassified.value != [] && batchSize != 0 && metaOk ==>
          var p := ProgressOf(Reached(unclassified.value, batchSize), s, 0);
          report == CardsLoad.LoadReport(true, p.classified, |unclassified.value|, p.errors)
          && meta == Some(ArchetypeMeta(now, p.classified, CardsLoad.Initial)))
    ensures last.Some? ==>
      (since.None? || (batchSize == 0 && since != Some([])) ==> report == Failure && meta.None?)
      && (since == Some([]) ==> report == Empty && meta.None?)
      && (since.Some? && since.value != [] && batchSize != 0 && !metaOk ==> report == Failure && meta.None?)
      && (since.Some? && since.value != [] && batchSize != 0 && metaOk ==>
          var p := ProgressOf(Reached(since.value, batchSize), s, last.value);
          report == CardsLoad.LoadReport(true, p.classified, |since.value|, p.errors)
          && meta == Some(ArchetypeMeta(p.maxTimestamp, p.classified, CardsLoad.Incremental)))
  {
    if last.None? {
      report, meta := LoadInitial(unclassified, batchSize, s, now, metaOk);
      return;
    }
    if since.None? {
      return Failure, None;
    }
    if since.value == [] {
      return Empty, None;
    }
    var p := ProcessInBatches(since.value, batchSize, s, last.value);
    if p.None? || !metaOk {
      return Failure, None;
    }
    meta := Some(ArchetypeMeta(p.value.maxTimestamp, p.value.classified, CardsLoad.Incremental));
    report := CardsLoad.LoadReport(true, p.value.classified, |since.value|, p.value.errors);
  }

  /**
   * With a positive batch size every decklist is counted exactly once, as classified or
   * as an error, and there is one update call per classified decklist.
   */
  lemma BatchesAccountForAll(ds: seq<Decklist>, batchSize: int, s: Services, from: int)
    requires batchSize > 0
    ensures var p := ProgressOf(Reached(ds, batchSize), s, from);
      p.classified + p.errors == |ds| && |p.updates| == p.classified
  {
  }

  /** With a negative batch size no decklist is processed, yet the report counts them all as processed. */
  lemma NegativeBatchSizeProcessesNothing(ds: seq<Decklist>, batchSize: int, s: Services, from: int)
    requires batchSize < 0
    ensures ProgressOf(Reached(ds, batchSize), s, from) == Progress(0, 0, [], from)
  {
  }

  /** The incremental timestamp is the latest of the stored one and every processed decklist's start date. */
  lemma IncrementalTimestampIsLatest(ds: seq<Decklist>, s: Services, last: int)
    ensures var m := ProgressOf(ds, s, last).maxTimestamp;
      m >= last && (forall d :: d in ds ==> m >= d.startDate) && (m == last || exists d :: d in ds && m == d.startDate)
  {
    var m := ProgressOf(ds, s, last).maxTimestamp;
    forall d | d in ds
      ensures m >= d.startDate
    {
      var i :| 0 <= i < |ds| && ds[i] == d;
    }
  }
}
