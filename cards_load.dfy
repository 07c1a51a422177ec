/**
 * The card load: oracle cards, optionally cut to a limit, joined with their rulings,
 * transformed to rows (a card whose transform fails is dropped), then written in
 * consecutive batches whose sizes are counted as loaded or as errors. The database is
 * the outcome of each batch, given as `batchOk`, and whether the transaction as a
 * whole completes, given as `commits`.
 */
module CardsLoad {
  import opened Common
  import opened Scryfall

  /** The statement a batch runs: overwrite a stored card, or keep it. */
  datatype Conflict = DoUpdate | DoNothing

  /** `update_existing` chooses ON CONFLICT DO UPDATE when true and DO NOTHING when false. */
  function ConflictFor(updateExisting: bool): (c: Conflict)
    ensures c == DoUpdate <==> updateExisting
    ensures c == DoNothing <==> !updateExisting
  {
    if updateExisting then DoUpdate else DoNothing
  }

  /** The counts the insert returns, or Raised when an exception leaves it. */
  datatype InsertResult = Counts(loaded: nat, processed: nat, errors: nat) | Raised

  /** The batches `range(0, len(rows), size)` cuts, for a positive size. */
  function Batches<T>(rows: seq<T>, size: nat): seq<seq<T>>
    requires size >= 1
    decreases |rows|
  {
    if rows == [] then []
    else if |rows| <= size then [rows]
    else [rows[..size]] + Batches(rows[size..], size)
  }

  /** The batches are the rows, in order, cut into pieces of 1 to `size` rows. */
  lemma {:induction false} BatchesCoverRows<T>(rows: seq<T>, size: nat)
    requires size >= 1
    ensures Flatten(Batches(rows, size)) == rows
    ensures forall k :: 0 <= k < |Batches(rows, size)| ==> 1 <= |Batches(rows, size)[k]| <= size
    decreases |rows|
  {
    if rows != [] && |rows| > size {
      BatchesCoverRows(rows[size..], size);
      var bs := Batches(rows, size);
      assert bs[1..] == Batches(rows[size..], size);
      assert rows == rows[..size] + rows[size..];
    }
  }

  /** There are ⌈n / size⌉ batches: the fewest pieces of at most `size` rows that hold all n rows. */
  lemma {:induction false} BatchCount<T>(rows: seq<T>, size: nat)
    requires size >= 1
    ensures |Batches(rows, size)| * size >= |rows|
    ensures rows != [] ==> (|Batches(rows, size)| - 1) * size < |rows|
    decreases |rows|
  {
    if rows != [] && |rows| > size {
      var k := |Batches(rows[size..], size)|;
      BatchCount(rows[size..], size);
      assert |Batches(rows, size)| == k + 1;
      assert (k + 1) * size == k * size + size;
    }
  }

  /** The rows of the batches that succeed. */
  function LoadedBy(bs: seq<seq<CardRow>>, conflict: Conflict, batchOk: (seq<CardRow>, Conflict) -> bool): nat
  {
    if bs == [] then 0 else (if batchOk(bs[0], conflict) then |bs[0]| else 0) + LoadedBy(bs[1..], conflict, batchOk)
  }

  /** The rows of the batches that fail. */
  function FailedBy(bs: seq<seq<CardRow>>, conflict: Conflict, batchOk: (seq<CardRow>, Conflict) -> bool): nat
  {
    if bs == [] then 0 else (if batchOk(bs[0], conflict) then 0 else |bs[0]|) + FailedBy(bs[1..], conflict, batchOk)
  }

  /** Every row is in a batch that either succeeds or fails. */
  lemma {:induction false} LoadedPlusFailed(bs: seq<seq<CardRow>>, conflict: Conflict, batchOk: (seq<CardRow>, Conflict) -> bool)
    ensures LoadedBy(bs, conflict, batchOk) + FailedBy(bs, conflict, batchOk) == |Flatten(bs)|
  {
    if bs != [] {
      LoadedPlusFailed(bs[1..], conflict, batchOk);
    }
  }

  /**
   * The batch loop's outcome: a batch size of 0 makes `range` raise, a negative one
   * gives no batches, and a transaction that does not complete raises.
   */
  function InsertOutcome(rows: seq<CardRow>, batchSize: int, conflict: Conflict,
                         batchOk: (seq<CardRow>, Conflict) -> bool, commits: bool): InsertResult
  {
    if batchSize == 0 || !commits then Raised
    else if batchSize < 0 then Counts(0, |rows|, 0)
    else
      var bs := Batches(rows, batchSize);
      Counts(LoadedBy(bs, conflict, batchOk), |rows|, FailedBy(bs, conflict, batchOk))
  }

  /** With a positive batch size, a completed insert accounts for every row: loaded + errors = processed. */
  lemma AccountingBalances(rows: seq<CardRow>, batchSize: int, conflict: Conflict,
                           batchOk: (seq<CardRow>, Conflict) -> bool, commits: bool)
    requires batchSize >= 1
    ensures InsertOutcome(rows, batchSize, conflict, batchOk, commits).Counts? ==>
      InsertOutcome(rows, batchSize, conflict, batchOk, commits).loaded + InsertOutcome(rows, batchSize, conflict, batchOk, commits).errors
      == InsertOutcome(rows, batchSize, conflict, batchOk, commits).processed
  {
    LoadedPlusFailed(Batches(rows, batchSize), conflict, batchOk);
    BatchesCoverRows(rows, batchSize);
  }

  /** A negative batch size writes nothing and counts nothing, however many rows there are. */
  lemma NegativeBatchSizeCountsNothing(rows: seq<CardRow>, batchSize: int, conflict: Conflict,
                                        batchOk: (seq<CardRow>, Conflict) -> bool)
    requires batchSize < 0
    ensures InsertOutcome(rows, batchSize, conflict, batchOk, true) == Counts(0, |rows|, 0)
  {
  }

  /** `if limit and len(cards) > limit: cards = cards[:limit]`. */
  function LimitCards(cards: seq<Dict>, limit: Option<int>): (r: seq<Dict>)
    ensures limit.Some? && limit.value > 0 ==> |r| == Min(|cards|, limit.value) && r == cards[..|r|]
    ensures (limit.None? || limit.value == 0) ==> r == cards
  {
    if limit.Some? && limit.value != 0 && |cards| > limit.value then PyTake(cards, limit.value) else cards
  }

  /** The rows of the cards that transform, in order. */
  function TransformAll(cards: seq<Dict>, repr: Json -> string): (rows: seq<CardRow>)
    ensures |rows| <= |cards|
  {
    if cards == [] then []
    else
      var init := TransformAll(cards[..|cards| - 1], repr);
      match Transform(cards[|cards| - 1], repr)
      case Some(row) => init + [row]
      case None => init
  }

  /** When every card transforms, there is one row per card. */
  lemma {:induction false} AllTransformed(cards: seq<Dict>, repr: Json -> string)
    requires forall i :: 0 <= i < |cards| ==> Transform(cards[i], repr).Some?
    ensures |TransformAll(cards, repr)| == |cards|
  {
    if cards != [] {
      AllTransformed(cards[..|cards| - 1], repr);
    }
  }

  /** The rulings bulk data, or none when its download failed. */
  function RulingsOr(rulings: Option<seq<Dict>>): seq<Dict>
  {
    if rulings.Some? then rulings.value else []
  }

  /** The rows the batches are cut from. */
  function PreparedRows(cards: seq<Dict>, rulings: Option<seq<Dict>>, limit: Option<int>, repr: Json -> string): seq<CardRow>
  {
    TransformAll(Joined(LimitCards(cards, limit), RulingsOr(rulings)), repr)
  }

  /**
   * The insert's outcome for the downloaded oracle cards: the join raises on an
   * unhashable oracle id, before any row is written; otherwise the batch outcome of the
   * prepared rows.
   */
  function CardsOutcome(cards: seq<Dict>, rulings: Option<seq<Dict>>, limit: Option<int>, repr: Json -> string,
                        batchSize: int, conflict: Conflict, batchOk: (seq<CardRow>, Conflict) -> bool, commits: bool): InsertResult
  {
    if JoinRaises(LimitCards(cards, limit), RulingsOr(rulings)) then Raised
    else InsertOutcome(PreparedRows(cards, rulings, limit, repr), batchSize, conflict, batchOk, commits)
  }

  /**
   * `insert_cards`. `oracle` is the oracle bulk data's card list, None when the download
   * failed or had no "data"; `rulings` likewise for the rulings.
   */
  method InsertCards(oracle: Option<seq<Dict>>, rulings: Option<seq<Dict>>, batchSize: int, updateExisting: bool,
                     limit: Option<int>, repr: Json -> string, batchOk: (seq<CardRow>, Conflict) -> bool, commits: bool)
    returns (res: InsertResult)
    ensures oracle.None? ==> res == Counts(0, 0, 1)
    ensures oracle.Some? && JoinRaises(LimitCards(oracle.value, limit), RulingsOr(rulings)) ==> res == Raised
    ensures oracle.Some? ==>
      res == CardsOutcome(oracle.value, rulings, limit, repr, batchSize, ConflictFor(updateExisting), batchOk, commits)
  {
    if oracle.None? {
      return Counts(0, 0, 1);
    }
    var cards := oracle.value;
    if limit.Some? && limit.value != 0 && |cards| > limit.value {
      cards := PyTake(cards, limit.value);
    }
    var joined := JoinCardsWithRulings(cards, RulingsOr(rulings));
    if joined.None? {
      return Raised;
    }
    var rows := TransformCards(joined.value, repr);
    res := InsertRows(rows, batchSize, ConflictFor(updateExisting), batchOk, commits);
  }

  /** The transform loop: a card whose transform raises is skipped. */
  method TransformCards(cards: seq<Dict>, repr: Json -> string) returns (rows: seq<CardRow>)
    ensures rows == TransformAll(cards, repr)
  {
    rows := [];
    var i := 0;
    while i < |cards|
      invariant 0 <= i <= |cards|
      invariant rows == TransformAll(cards[..i], repr)
    {
      assert cards[..i + 1][..i] == cards[..i];
      var row := Transform(cards[i], repr);
      if row.Some? {
        rows := rows + [row.value];
      }
      i := i + 1;
    }
    assert cards[..i] == cards;
  }

  /** The transaction: one statement per batch, its size added to loaded or to errors. */
  method InsertRows(rows: seq<CardRow>, batchSize: int, conflict: Conflict,
                    batchOk: (seq<CardRow>, Conflict) -> bool, commits: bool) returns (res: InsertResult)
    ensures res == InsertOutcome(rows, batchSize, conflict, batchOk, commits)
  {
    if batchSize == 0 {
      return Raised;
    }
    var loaded: nat := 0;
    var errors: nat := 0;
    if batchSize > 0 {
      loaded, errors := InsertBatches(rows, batchSize, conflict, batchOk);
    }
    if !commits {
      return Raised;
    }
    res := Counts(loaded, |rows|, errors);
  }

  /** The batch loop: rows[i:i+size] for i = 0, size, 2*size, ..., each issued once. */
  method InsertBatches(rows: seq<CardRow>, size: nat, conflict: Conflict, batchOk: (seq<CardRow>, Conflict) -> bool)
    returns (loaded: nat, errors: nat)
    requires size >= 1
    ensures loaded == LoadedBy(Batches(rows, size), conflict, batchOk)
    ensures errors == FailedBy(Batches(rows, size), conflict, batchOk)
  {
    loaded, errors := 0, 0;
    var i := 0;
    ghost var rest := Batches(rows, size);
    while i < |rows|
      invariant 0 <= i
      invariant i < |rows| ==> rest == Batches(rows[i..], size)
      invariant i >= |rows| ==> rest == []
      invariant LoadedBy(Batches(rows, size), conflict, batchOk) == loaded + LoadedBy(rest, conflict, batchOk)
      invariant FailedBy(Batches(rows, size), conflict, batchOk) == errors + FailedBy(rest, conflict, batchOk)
      decreases |rows| - i
    {
      var batch := rows[i..Min(i + size, |rows|)];
      BatchStep(rows, i, size);
      if batchOk(batch, conflict) {
        loaded := loaded + |batch|;
      } else {
        errors := errors + |batch|;
      }
      rest := rest[1..];
      i := i + size;
    }
  }

  /** The batches from row i on: the slice rows[i:i+size], then the batches from i + size on. */
  lemma BatchStep(rows: seq<CardRow>, i: nat, size: nat)
    requires size >= 1 && i < |rows|
    ensures Batches(rows[i..], size) != []
    ensures Batches(rows[i..], size)[0] == rows[i..Min(i + size, |rows|)]
    ensures i + size < |rows| ==> Batches(rows[i..], size)[1..] == Batches(rows[i + size..], size)
    ensures i + size >= |rows| ==> Batches(rows[i..], size)[1..] == []
  {
    if |rows| - i > size {
      assert rows[i..][..size] == rows[i..i + size];
      assert rows[i..][size..] == rows[i + size..];
    } else {
      assert rows[i..Min(i + size, |rows|)] == rows[i..];
    }
  }

  /** What `load_initial` and `load_incremental` return. */
  datatype LoadReport = LoadReport(success: bool, objectsLoaded: nat, objectsProcessed: nat, errors: nat)

  datatype LoadKind = Initial | Incremental

  /** The load-metadata row written after a load (its timestamp is the current time). */
  datatype Metadata = Metadata(objectsLoaded: nat, dataType: string, loadType: LoadKind)

  /** The standardised report, None when the insert raised. */
  function ReportOf(res: InsertResult): (r: Option<LoadReport>)
    ensures r.Some? <==> res.Counts?
    ensures r.Some? ==> (r.value.success <==> res.errors == 0)
  {
    match res
    case Raised => None
    case Counts(loaded, processed, errors) => Some(LoadReport(errors == 0, loaded, processed, errors))
  }

  /** Metadata is written exactly when some cards were loaded. */
  function MetadataOf(res: InsertResult, kind: LoadKind): (m: Option<Metadata>)
    ensures m.Some? <==> res.Counts? && res.loaded > 0
    ensures m.Some? ==> m.value.objectsLoaded == res.loaded && m.value.loadType == kind
  {
    if res.Counts? && res.loaded > 0 then Some(Metadata(res.loaded, "cards", kind)) else None
  }

  /**
   * `CardsPipeline.load_initial`: the insert with DO UPDATE. `metaOk` is whether the
   * load-metadata insert succeeds; when it is issued and fails, the load raises (None).
   */
  method LoadInitial(oracle: Option<seq<Dict>>, rulings: Option<seq<Dict>>, batchSize: int, limit: Option<int>,
                     repr: Json -> string, batchOk: (seq<CardRow>, Conflict) -> bool, commits: bool, metaOk: bool)
    returns (report: Option<LoadReport>, meta: Option<Metadata>)
    ensures oracle.None? ==> report == Some(LoadReport(false, 0, 0, 1)) && meta.None?
    ensures oracle.Some? ==>
      var res := CardsOutcome(oracle.value, rulings, limit, repr, batchSize, DoUpdate, batchOk, commits);
      if MetadataOf(res, Initial).Some? && !metaOk then report.None? && meta.None?
      else report == ReportOf(res) && meta == MetadataOf(res, Initial)
  {
    var res := InsertCards(oracle, rulings, batchSize, true, limit, repr, batchOk, commits);
    meta := MetadataOf(res, Initial);
    if meta.Some? && !metaOk {
      return None, None;
    }
    report := ReportOf(res);
  }

  /**
   * `CardsPipeline.load_incremental`: without a stored timestamp it is the initial load;
   * otherwise the insert with DO NOTHING, and a failing metadata insert raises likewise.
   */
  method LoadIncremental(lastTimestamp: Option<int>, oracle: Option<seq<Dict>>, rulings: Option<seq<Dict>>,
                         batchSize: int, limit: Option<int>, repr: Json -> string,
                         batchOk: (seq<CardRow>, Conflict) -> bool, commits: bool, metaOk: bool)
    returns (report: Option<LoadReport>, meta: Option<Metadata>)
    ensures lastTimestamp.None? && oracle.Some? ==>
      var res := CardsOutcome(oracle.value, rulings, limit, repr, batchSize, DoUpdate, batchOk, commits);
      if MetadataOf(res, Initial).Some? && !metaOk then report.None? && meta.None?
      else report == ReportOf(res) && meta == MetadataOf(res, Initial)
    ensures lastTimestamp.Some? && oracle.Some? ==>
      var res := CardsOutcome(oracle.value, rulings, limit, repr, batchSize, DoNothing, batchOk, commits);
      if MetadataOf(res, Incremental).Some? && !metaOk then report.None? && meta.None?
      else report == ReportOf(res) && meta == MetadataOf(res, Incremental)
    ensures oracle.None? ==> report == Some(LoadReport(false, 0, 0, 1)) && meta.None?
  {
    if lastTimestamp.None? {
      report, meta := LoadInitial(oracle, rulings, batchSize, limit, repr, batchOk, commits, metaOk);
      return;
    }
    var res := InsertCards(oracle, rulings, batchSize, false, limit, repr, batchOk, commits);
    meta := MetadataOf(res, Incremental);
    if meta.Some? && !metaOk {
      return None, None;
    }
    report := ReportOf(res);
  }

  /**
   * `load_cards_from_bulk_data` in the tournament loader: the same steps, with no limit
   * and always DO UPDATE.
   */
  method LoadCardsFromBulkData(oracle: Option<seq<Dict>>, rulings: Option<seq<Dict>>, batchSize: int,
                               repr: Json -> string, batchOk: (seq<CardRow>, Conflict) -> bool, commits: bool)
    returns (res: InsertResult)
    ensures oracle.None? ==> res == Counts(0, 0, 1)
    ensures oracle.Some? ==> res == CardsOutcome(oracle.value, rulings, None, repr, batchSize, DoUpdate, batchOk, commits)
  {
    res := InsertCards(oracle, rulings, batchSize, true, None, repr, batchOk, commits);
  }

  /** A completed load with a positive batch size reports success exactly when every row was loaded. */
  lemma SuccessMeansEverythingLoaded(rows: seq<CardRow>, batchSize: int, conflict: Conflict,
                                     batchOk: (seq<CardRow>, Conflict) -> bool)
    requires batchSize >= 1
    ensures var r := ReportOf(InsertOutcome(rows, batchSize, conflict, batchOk, true));
      r.Some? && (r.value.success <==> r.value.objectsLoaded == r.value.objectsProcessed)
  {
    AccountingBalances(rows, batchSize, conflict, batchOk, true);
  }
}
