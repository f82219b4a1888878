/** Broker operations, their classification, and the paged reading of the broker's list of them. */
module Operations {
  import opened Wrappers

  datatype Operation = Operation(id: string, kind: string, state: string, amount: real, date: int)

  datatype EventType = ACCOUNT_CHANGE | DEPOSIT_DETECTED | WITHDRAWAL_DETECTED | ORDER_EXECUTION_DETECTED

  const EXECUTED_STATES := {"OPERATION_STATE_EXECUTED", "EXECUTED"}

  const DEPOSIT_TYPES := {
    "OPERATION_TYPE_INPUT", "OPERATION_TYPE_INPUT_ACQUIRING", "OPERATION_TYPE_INP_MULTI", "OPERATION_TYPE_INPUT_SWIFT"}

  const WITHDRAWAL_TYPES := {
    "OPERATION_TYPE_OUTPUT", "OPERATION_TYPE_OUTPUT_ACQUIRING", "OPERATION_TYPE_OUT_MULTI", "OPERATION_TYPE_OUTPUT_SWIFT"}

  const TRADE_TYPES := {"OPERATION_TYPE_BUY", "OPERATION_TYPE_SELL"}

  /** `classify_operation`, then `_operation_event_type` for what it leaves open. */
  function EventTypeOf(op: Operation): Option<EventType> {
    if op.state !in EXECUTED_STATES then None
    else if op.kind in DEPOSIT_TYPES then Some(DEPOSIT_DETECTED)
    else if op.kind in WITHDRAWAL_TYPES then Some(WITHDRAWAL_DETECTED)
    else if op.kind in TRADE_TYPES then Some(ORDER_EXECUTION_DETECTED)
    else None
  }

  /** The lists of types do not overlap, so the order in which they are consulted makes no difference. */
  lemma ClassificationUnambiguous(op: Operation)
    ensures EventTypeOf(op) != Some(ACCOUNT_CHANGE)
    ensures EventTypeOf(op) == Some(DEPOSIT_DETECTED) <==> op.state in EXECUTED_STATES && op.kind in DEPOSIT_TYPES
    ensures EventTypeOf(op) == Some(WITHDRAWAL_DETECTED) <==> op.state in EXECUTED_STATES && op.kind in WITHDRAWAL_TYPES
    ensures EventTypeOf(op) == Some(ORDER_EXECUTION_DETECTED) <==> op.state in EXECUTED_STATES && op.kind in TRADE_TYPES
  {
    var o := |"OPERATION_TYPE_"|;
    assert forall kind :: kind in DEPOSIT_TYPES ==> |kind| > o && kind[o] == 'I';
    assert forall kind :: kind in WITHDRAWAL_TYPES ==> |kind| > o && kind[o] == 'O';
    assert forall kind :: kind in TRADE_TYPES ==> |kind| > o && kind[o] in {'B', 'S'};
  }

  // ------------------------------------------------------------- paging

  /** `OperationsCursorRequest.limit` */
  const PAGE := 100

  datatype OperationsPage = OperationsPage(items: seq<Operation>, nextCursor: Option<nat>, hasNext: bool)

  datatype Reading = Reading(operations: seq<Operation>, cursor: Option<nat>)

  function StartOf(cursor: Option<nat>): nat {
    if cursor.Some? then cursor.value else 0
  }

  /** What is left of the broker's list from `start` on. */
  function From(log: seq<Operation>, start: nat): seq<Operation> {
    if start <= |log| then log[start..] else []
  }

  /** `get_operations_page` */
  function GetOperationsPage(log: seq<Operation>, cursor: Option<nat>): OperationsPage {
    var start := StartOf(cursor);
    var rest := From(log, start);
    var items := if |rest| <= PAGE then rest else rest[..PAGE];
    var nextIndex := start + |items|;
    OperationsPage(items, if nextIndex < |log| then Some(nextIndex) else None, nextIndex < |log|)
  }

  function Prepend(operations: seq<Operation>, r: Option<Reading>): Option<Reading> {
    if r.None? then None else Some(Reading(operations + r.value.operations, r.value.cursor))
  }

  lemma PrependTwice(first: seq<Operation>, second: seq<Operation>, r: Option<Reading>)
    ensures Prepend(first, Prepend(second, r)) == Prepend(first + second, r)
  {
    if r.Some? {
      assert first + (second + r.value.operations) == first + second + r.value.operations;
    }
  }

  /** The pages read from one moment to the next: `views[i]` is the broker's list at the i-th request. */
  function ReadPages(views: seq<seq<Operation>>, cursor: Option<nat>): Option<Reading> {
    if views == [] then None
    else
      var page := GetOperationsPage(views[0], cursor);
      if page.hasNext then Prepend(page.items, ReadPages(views[1..], page.nextCursor))
      else Some(Reading(page.items, page.nextCursor))
  }

  /** `_read_operations`, whose page bound is `|views|`; failure stands for the raised error. */
  method ReadOperations(views: seq<seq<Operation>>, cursor: Option<nat>) returns (r: Option<Reading>)
    ensures r == ReadPages(views, cursor)
  {
    hide GetOperationsPage, Prepend;
    var current := cursor;
    var operations: seq<Operation> := [];
    assert views[0..] == views;
    PrependNothing(ReadPages(views, cursor));
    for i := 0 to |views|
      invariant ReadPages(views, cursor) == Prepend(operations, ReadPages(views[i..], current))
    {
      assert views[i..][1..] == views[i + 1..];
      var page := GetOperationsPage(views[i], current);
      PrependTwice(operations, page.items, ReadPages(views[i + 1..], page.nextCursor));
      PrependReading(operations, page);
      operations := operations + page.items;
      current := page.nextCursor;
      if !page.hasNext {
        return Some(Reading(operations, current));
      }
    }
    PrependNone(operations);
    return None;
  }

  lemma PrependNothing(r: Option<Reading>)
    ensures Prepend([], r) == r
  {
    if r.Some? {
      assert [] + r.value.operations == r.value.operations;
    }
  }

  lemma PrependNone(operations: seq<Operation>)
    ensures Prepend(operations, None) == None
  {
  }

  lemma PrependReading(operations: seq<Operation>, page: OperationsPage)
    ensures Prepend(operations, Some(Reading(page.items, page.nextCursor)))
         == Some(Reading(operations + page.items, page.nextCursor))
  {
  }

  /** The broker's list only ever grows at its end. */
  ghost predicate Growing(views: seq<seq<Operation>>) {
    forall i, j :: 0 <= i <= j < |views| ==> views[i] <= views[j]
  }

  /** After `i` more pages the reader has passed index `start + i * PAGE`; does the list still go on? */
  predicate GoesOn(views: seq<seq<Operation>>, start: nat, i: nat)
    requires i < |views|
  {
    |views[i]| > start + (i + 1) * PAGE
  }

  /**
   * If page `k` is the first to reach the end of the list, the reading is everything from the stored cursor
   * to that end, once each and in order, and the cursor to store is cleared.
   */
  lemma {:induction false} ReadsWholeSuffix(views: seq<seq<Operation>>, cursor: Option<nat>, k: nat)
    requires Growing(views) && k < |views|
    requires !GoesOn(views, StartOf(cursor), k)
    requires forall i :: 0 <= i < k ==> GoesOn(views, StartOf(cursor), i)
    ensures ReadPages(views, cursor) == Some(Reading(From(views[k], StartOf(cursor)), None))
    decreases k
  {
    var start := StartOf(cursor);
    if k > 0 {
      var page, next := GetOperationsPage(views[0], cursor), start + PAGE;
      assert GoesOn(views, start, 0);
      assert page.nextCursor == Some(next);
      ReadRest(views, start, k);
      assert views[0] <= views[k];
      assert page.items + From(views[k], next) == From(views[k], start);
    }
  }

  lemma GrowingTail(views: seq<seq<Operation>>)
    requires Growing(views) && views != []
    ensures Growing(views[1..])
  {
    forall i, j | 0 <= i <= j < |views[1..]| ensures views[1..][i] <= views[1..][j] {
      assert views[i + 1] <= views[j + 1];
    }
  }

  lemma GoesOnTail(views: seq<seq<Operation>>, start: nat, i: nat)
    requires i + 1 < |views|
    ensures GoesOn(views[1..], start + PAGE, i) == GoesOn(views, start, i + 1)
  {
  }

  lemma {:induction false} ReadRest(views: seq<seq<Operation>>, start: nat, k: nat)
    requires Growing(views) && 0 < k < |views|
    requires !GoesOn(views, start, k)
    requires forall i :: 0 <= i < k ==> GoesOn(views, start, i)
    ensures ReadPages(views[1..], Some(start + PAGE)) == Some(Reading(From(views[k], start + PAGE), None))
    decreases k, 0
  {
    hide GoesOn, Growing, ReadPages, From;
    var rest, next := views[1..], start + PAGE;
    GrowingTail(views);
    forall i: nat | i < k - 1 ensures GoesOn(rest, next, i) {
      GoesOnTail(views, start, i);
    }
    GoesOnTail(views, start, k - 1);
    ReadsWholeSuffix(rest, Some(next), k - 1);
  }

  /** Otherwise the page bound is hit and the reading fails. */
  lemma {:induction false} ReadGivesUp(views: seq<seq<Operation>>, cursor: Option<nat>)
    requires forall i :: 0 <= i < |views| ==> GoesOn(views, StartOf(cursor), i)
    ensures ReadPages(views, cursor).None?
    decreases |views|
  {
    if views != [] {
      var start, rest, next := StartOf(cursor), views[1..], StartOf(cursor) + PAGE;
      assert GoesOn(views, start, 0);
      forall i: nat | i < |rest| ensures GoesOn(rest, next, i) {
        GoesOnTail(views, start, i);
      }
      ReadGivesUp(rest, Some(next));
    }
  }

  /**
   * While the list stands still, the reading succeeds exactly when the pages it needs are within the bound,
   * and then loses and repeats nothing.
   */
  lemma ReadExactly(log: seq<Operation>, cursor: Option<nat>, maxPages: nat)
    requires maxPages > 0
    ensures var r := ReadPages(seq(maxPages, _ => log), cursor);
            && (r.Some? <==> |log| <= StartOf(cursor) + maxPages * PAGE)
            && (r.Some? ==> r.value == Reading(From(log, StartOf(cursor)), None))
  {
    var views, start := seq(maxPages, _ => log), StartOf(cursor);
    if |log| <= start + maxPages * PAGE {
      var k := 0;
      while |log| > start + (k + 1) * PAGE
        invariant 0 <= k < maxPages
        invariant forall i :: 0 <= i < k ==> GoesOn(views, start, i)
        decreases maxPages - k
      {
        assert GoesOn(views, start, k);
        k := k + 1;
      }
      ReadsWholeSuffix(views, cursor, k);
    } else {
      forall i | 0 <= i < |views| ensures GoesOn(views, start, i) {
        assert (i + 1) * PAGE <= maxPages * PAGE;
      }
      ReadGivesUp(views, cursor);
    }
  }
}
