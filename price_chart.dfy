/**
 * The price chart of one symbol: it fetches the symbol's candle series and
 * stores it only when the payload is an array whose every item has a truthy
 * date, open, high, low and close; anything else is logged and the stored
 * series is left as it was. It shows "Loading..." while the stored series
 * is empty.
 */
module PriceChart {
  import opened Json
  import opened Http

  /** The properties every candle must have, truthy. */
  const RequiredFields: seq<string> := ["date", "open", "high", "low", "close"]

  /**
   * `item.date && item.open && item.high && item.low && item.close`, for an
   * item that is not null.
   */
  predicate CandleFieldsTruthy(item: Value)
    requires !item.Null?
  {
    TruthyProperty(item, "date") && TruthyProperty(item, "open") && TruthyProperty(item, "high")
    && TruthyProperty(item, "low") && TruthyProperty(item, "close")
  }

  /** An item passes validation: it is not null and its five properties are truthy. */
  predicate ValidCandle(item: Value) {
    !item.Null? && CandleFieldsTruthy(item)
  }

  /** How a call of `every` over the items ends. */
  datatype EveryResult =
    | AllPass     // every item passed: `every` returned true
    | FoundFalsy  // an item failed: `every` returned false
    | Threw       // an item was null, so reading `item.date` threw a TypeError

  /**
   * `items.every(item => item.date && ...)`: stops at the first item that is
   * null (the property read throws) or fails the check.
   */
  function Every(items: seq<Value>): (r: EveryResult)
    ensures r == AllPass ==> forall i :: 0 <= i < |items| ==> ValidCandle(items[i])
    ensures r == Threw ==> Null in items
    ensures r == FoundFalsy ==> exists x :: x in items && !x.Null? && !ValidCandle(x)
  {
    if items == [] then AllPass
    else if items[0].Null? then Threw
    else if !CandleFieldsTruthy(items[0]) then FoundFalsy
    else Every(items[1..])
  }

  /** The outcomes of one `fetchData` run, one per branch of the source. */
  datatype FetchOutcome =
    | Accepted          // `setData(stockData)`
    | InvalidStructure  // logged "Invalid data structure"
    | NotAnArray        // logged "Data is not an array"
    | Caught            // logged "Error fetching stock data": rejected request or a thrown TypeError

  /** Which branch `fetchData` takes for a response. */
  function FetchBranch(response: Response<Value>): (r: FetchOutcome)
    ensures response.Failed? ==> r == Caught
    ensures r == NotAnArray <==> response.Ok? && !response.data.Array?
    ensures r == Accepted ==> response.Ok? && response.data.Array?
                              && forall i :: 0 <= i < |response.data.items| ==> ValidCandle(response.data.items[i])
  {
    match response
    case Failed => Caught
    case Ok(payload) =>
      if !payload.Array? then NotAnArray
      else match Every(payload.items)
        case AllPass => Accepted
        case FoundFalsy => InvalidStructure
        case Threw => Caught
  }

  /** `every` returns true exactly when every item is a valid candle (vacuously so for none). */
  lemma EveryAllPassIff(items: seq<Value>)
    ensures Every(items) == AllPass <==> forall i :: 0 <= i < |items| ==> ValidCandle(items[i])
  {
  }

  /** The first item at which the scan stops is null: some null item is preceded only by valid candles. */
  ghost predicate NullBeforeAnyFailure(items: seq<Value>) {
    exists k :: 0 <= k < |items| && items[k].Null? && forall j :: 0 <= j < k ==> ValidCandle(items[j])
  }

  lemma {:induction false} ThrewHasNullBeforeFailure(items: seq<Value>)
    requires Every(items) == Threw
    ensures NullBeforeAnyFailure(items)
  {
    if items[0].Null? {
      assert items[0].Null?;
    } else {
      var rest := items[1..];
      ThrewHasNullBeforeFailure(rest);
      var k :| 0 <= k < |rest| && rest[k].Null? && forall j :: 0 <= j < k ==> ValidCandle(rest[j]);
      assert items[k + 1] == rest[k];
      forall j | 0 <= j < k + 1 ensures ValidCandle(items[j]) {
        if j > 0 { assert items[j] == rest[j - 1]; }
      }
    }
  }

  lemma {:induction false} NullBeforeFailureThrows(items: seq<Value>)
    requires NullBeforeAnyFailure(items)
    ensures Every(items) == Threw
  {
    var k :| 0 <= k < |items| && items[k].Null? && forall j :: 0 <= j < k ==> ValidCandle(items[j]);
    if k > 0 {
      var rest := items[1..];
      assert ValidCandle(items[0]);
      assert rest[k - 1] == items[k];
      forall j | 0 <= j < k - 1 ensures ValidCandle(rest[j]) {
        assert rest[j] == items[j + 1];
      }
      NullBeforeFailureThrows(rest);
    }
  }

  /**
   * `every` throws exactly when some item is null and every item before it
   * passed: an earlier failing item ends the scan before the null is read.
   */
  lemma EveryThrowsIff(items: seq<Value>)
    ensures Every(items) == Threw <==> NullBeforeAnyFailure(items)
  {
    if Every(items) == Threw {
      ThrewHasNullBeforeFailure(items);
    }
    if NullBeforeAnyFailure(items) {
      NullBeforeFailureThrows(items);
    }
  }

  /**
   * A payload is accepted exactly when the request resolved, its body is an
   * array, and every item of it is a valid candle.
   */
  lemma AcceptedIff(response: Response<Value>)
    ensures FetchBranch(response) == Accepted <==>
            response.Ok? && response.data.Array?
            && forall i :: 0 <= i < |response.data.items| ==> ValidCandle(response.data.items[i])
  {
  }

  /** A single failing item rejects the whole array: there is no partial acceptance. */
  lemma OneBadItemRejectsAll(items: seq<Value>, k: nat)
    requires k < |items| && !ValidCandle(items[k])
    ensures FetchBranch(Ok(Array(items))) != Accepted
  {
  }

  /** A body that is not an array is never accepted. */
  lemma NonArrayRejected(payload: Value)
    requires !payload.Array?
    ensures FetchBranch(Ok(payload)) == NotAnArray
  {
  }

  /** JavaScript truthiness: a candle whose open, high, low or close is 0 fails validation. */
  lemma ZeroPriceFails(item: Value, field: string)
    requires field in RequiredFields
    requires item.Object? && field in item.fields && item.fields[field] == Number(0.0)
    ensures !ValidCandle(item)
  {
  }

  /** An empty array passes validation and is stored. */
  lemma EmptyArrayAccepted()
    ensures FetchBranch(Ok(Array([]))) == Accepted
  {
  }

  /** A complete candle followed by one with only a date: the whole payload is rejected. */
  lemma IncompleteSecondCandleRejected()
    ensures
      var complete := Object(map["date" := Str("2024-01-01"), "open" := Number(1.0), "high" := Number(2.0),
                                 "low" := Number(0.5), "close" := Number(1.5)]);
      var partial := Object(map["date" := Str("2024-01-02")]);
      FetchBranch(Ok(Array([complete, partial]))) == InvalidStructure
  {
  }

  class StockChart {
    const symbol: string
    var data: seq<Value>

    /** Mounted for a symbol, with no data yet. */
    constructor (symbol: string)
      ensures this.symbol == symbol && data == []
      ensures ShowsLoading()
    {
      this.symbol := symbol;
      data := [];
    }

    /** "Loading..." is shown exactly when the stored series is empty. */
    predicate ShowsLoading()
      reads this
      ensures ShowsLoading() <==> data == []
    {
      |data| == 0
    }

    /**
     * One run of `fetchData` with the awaited response: the array is stored
     * when it is accepted; on every other outcome the stored data stays as it
     * was. An accepted empty array therefore keeps showing "Loading...".
     */
    method FetchData(response: Response<Value>) returns (outcome: FetchOutcome)
      modifies this`data
      ensures outcome == FetchBranch(response)
      ensures outcome == Accepted ==> data == response.data.items
      ensures outcome != Accepted ==> data == old(data)
      ensures outcome == Accepted ==> (ShowsLoading() <==> response.data.items == [])
    {
      outcome := FetchBranch(response);
      if outcome == Accepted {
        data := response.data.items;
      }
    }
  }
}
