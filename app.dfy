/**
 * The root component: it holds the list of trades created through the
 * trade form, appending each one the form forwards.
 */
module Application {
  import Json

  type Trade = Json.Value

  /** The list after a run of `handleNewTrade` calls, one per trade of `ts`, from `start`. */
  function AfterTrades(start: seq<Trade>, ts: seq<Trade>): (r: seq<Trade>)
    ensures |r| == |start| + |ts|
    ensures r[..|start|] == start
    decreases |ts|
  {
    if ts == [] then start else AfterTrades(start + [ts[0]], ts[1..])
  }

  /**
   * The list is append-only: after any run of calls it is the starting list
   * followed by every forwarded trade, in the order they arrived.
   */
  lemma {:induction false} AfterTradesAppends(start: seq<Trade>, ts: seq<Trade>)
    ensures AfterTrades(start, ts) == start + ts
    decreases |ts|
  {
    if ts != [] {
      AfterTradesAppends(start + [ts[0]], ts[1..]);
      assert start + [ts[0]] + ts[1..] == start + ts;
    }
  }

  /** From the initial empty list, a run of calls leaves exactly the trades forwarded, in order. */
  lemma AllTradesRetained(ts: seq<Trade>)
    ensures AfterTrades([], ts) == ts
  {
    AfterTradesAppends([], ts);
  }

  class App {
    var trades: seq<Trade>

    /** Mounted with no trades. */
    constructor ()
      ensures trades == []
    {
      trades := [];
    }

    /** The form's callback: the new trade goes at the end, earlier trades stay as they were. */
    method HandleNewTrade(trade: Trade)
      modifies this
      ensures trades == AfterTrades(old(trades), [trade])
      ensures |trades| == |old(trades)| + 1
      ensures trades[|trades| - 1] == trade
      ensures trades[..|old(trades)|] == old(trades)
    {
      trades := trades + [trade];
      assert [trade][1..] == [];
    }
  }
}
