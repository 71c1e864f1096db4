/**
 * The simulation dashboard: the view state held by the dashboard component
 * (the pattern and stock registries, the two text inputs, the selected
 * patterns and the last simulation result), the handlers that change it,
 * and the profit/loss rule of the results view. Every backend response is
 * an input of the handler that awaits it.
 */
module Dashboard {
  import opened Wrappers
  import opened Http
  import opened Selection

  /** A chart point of a pattern match: `pattern.start` / `pattern.end`. */
  datatype Point = Point(date: string, price: real)

  /** One detected pattern of a stock, with its signed performance. */
  datatype PatternMatch = PatternMatch(name: string, performance: real, start: Point, stop: Point)

  /** One point of a stock's closing-price series (`d.Date`, `d.Close`). */
  datatype PricePoint = PricePoint(date: string, close: real)

  /** The per-stock entry of a simulation response. */
  datatype StockResult = StockResult(performance: real, data: seq<PricePoint>, patterns: seq<PatternMatch>)

  /** The body of a simulation response: stock symbol to its result. */
  type SimulationResult = map<string, StockResult>

  /** How the results view classifies a pattern's performance. */
  datatype Verdict = Profit | Loss

  /** `performance > 0 ? 'Profit' : 'Loss'`: zero is a loss. */
  function Classify(performance: real): (v: Verdict)
    ensures v == Profit <==> performance > 0.0
    ensures performance == 0.0 ==> v == Loss
  {
    if performance > 0.0 then Profit else Loss
  }

  function VerdictText(v: Verdict): string {
    match v
    case Profit => "Profit"
    case Loss => "Loss"
  }

  /** The legend name of a pattern's overlay line: `name (Profit)` or `name (Loss)`. */
  function LegendName(m: PatternMatch): (legend: string)
    ensures legend == m.name + (if m.performance > 0.0 then " (Profit)" else " (Loss)")
  {
    m.name + " (" + VerdictText(Classify(m.performance)) + ")"
  }

  /** The colour of a pattern's overlay line. */
  function LineColour(m: PatternMatch): (colour: string)
    ensures colour == (if m.performance > 0.0 then "green" else "red")
  {
    if Classify(m.performance) == Profit then "green" else "red"
  }

  /** The CSS class of a pattern's entry in the performance list. */
  function ListClass(m: PatternMatch): (cssClass: string)
    ensures cssClass == (if m.performance > 0.0 then "text-green-600" else "text-red-600")
  {
    if Classify(m.performance) == Profit then "text-green-600" else "text-red-600"
  }

  /**
   * The three places that show a pattern's verdict agree with each other and
   * with the sign of its performance: green and Profit exactly when it is
   * positive, red and Loss otherwise (including zero).
   */
  lemma VerdictsAgree(m: PatternMatch)
    ensures LineColour(m) == "green" <==> m.performance > 0.0
    ensures ListClass(m) == "text-green-600" <==> m.performance > 0.0
    ensures LegendName(m) == m.name + " (Profit)" <==> m.performance > 0.0
    ensures LegendName(m) == m.name + " (Loss)" <==> m.performance <= 0.0
    ensures LineColour(m) == "red" <==> m.performance <= 0.0
    ensures ListClass(m) == "text-red-600" <==> m.performance <= 0.0
    ensures LineColour(m) == "red" <==> ListClass(m) == "text-red-600"
  {
  }

  /** One entry of a stock's "Pattern Performance" list. */
  datatype ListEntry = ListEntry(name: string, performance: real, cssClass: string)

  /** The performance list of one stock: one entry per pattern, in order. */
  function PerformanceList(r: StockResult): (entries: seq<ListEntry>)
    ensures |entries| == |r.patterns|
    ensures forall i :: 0 <= i < |entries| ==>
              entries[i].name == r.patterns[i].name
              && entries[i].performance == r.patterns[i].performance
              && entries[i].cssClass == (if r.patterns[i].performance > 0.0 then "text-green-600" else "text-red-600")
  {
    seq(|r.patterns|, i requires 0 <= i < |r.patterns| =>
      ListEntry(r.patterns[i].name, r.patterns[i].performance, ListClass(r.patterns[i])))
  }

  /** The stocks that get a results section: none until a result is held, then one per key. */
  function RenderedStocks(results: Option<SimulationResult>): (stocks: set<string>)
    ensures results.None? ==> stocks == {}
    ensures results.Some? ==> stocks == results.value.Keys
  {
    match results
    case None => {}
    case Some(r) => r.Keys
  }

  class StockDashboard {
    var patterns: seq<PatternName>
    var stocks: seq<string>
    var newPattern: string
    var newStock: string
    var simulationResults: Option<SimulationResult>
    var selectedPatterns: seq<PatternName>

    /** Only the toggle changes the selection, and it never creates a duplicate. */
    ghost predicate Valid()
      reads this
    {
      NoDuplicates(selectedPatterns)
    }

    /** The initial state: empty lists and inputs, no result (`null`). */
    constructor ()
      ensures Valid()
      ensures patterns == [] && stocks == [] && selectedPatterns == []
      ensures newPattern == "" && newStock == ""
      ensures simulationResults == None
    {
      patterns, stocks, selectedPatterns := [], [], [];
      newPattern, newStock := "", "";
      simulationResults := None;
    }

    /** A pattern's checkbox is checked exactly when the selection includes it. */
    predicate Checked(pattern: PatternName)
      reads this
      ensures Checked(pattern) <==> exists i :: 0 <= i < |selectedPatterns| && selectedPatterns[i] == pattern
    {
      pattern in selectedPatterns
    }

    /** The results section is shown exactly when a result is held. */
    predicate ShowsResults()
      reads this
      ensures ShowsResults() <==> simulationResults != None
      ensures !ShowsResults() ==> RenderedStocks(simulationResults) == {}
    {
      simulationResults.Some?
    }

    /** The "New pattern" input's change handler. */
    method SetNewPattern(value: string)
      modifies this`newPattern
      ensures newPattern == value
    {
      newPattern := value;
    }

    /** The "New stock symbol" input's change handler. */
    method SetNewStock(value: string)
      modifies this`newStock
      ensures newStock == value
    {
      newStock := value;
    }

    /**
     * A resolved pattern-registry fetch replaces the whole list; a rejected
     * one changes nothing. The selection is never pruned.
     */
    method ReceivePatterns(response: Response<seq<PatternName>>)
      modifies this`patterns
      ensures patterns == (if response.Ok? then response.data else old(patterns))
      ensures selectedPatterns == old(selectedPatterns)
    {
      if response.Ok? {
        patterns := response.data;
      }
    }

    /** A resolved stock-registry fetch replaces the whole list; a rejected one changes nothing. */
    method ReceiveStocks(response: Response<seq<string>>)
      modifies this`stocks
      ensures stocks == (if response.Ok? then response.data else old(stocks))
    {
      if response.Ok? {
        stocks := response.data;
      }
    }

    /**
     * Add Pattern: posts the input's current text (empty and duplicate names
     * included); once the post resolves, the input is cleared and a refetch
     * is issued. A rejected post stops the handler with nothing changed.
     */
    method AddPattern(posted: bool) returns (body: string, refetch: bool)
      modifies this`newPattern
      ensures body == old(newPattern)
      ensures refetch == posted
      ensures newPattern == (if posted then "" else old(newPattern))
    {
      body := newPattern;
      refetch := posted;
      if posted {
        newPattern := "";
      }
    }

    /** Add Stock: as Add Pattern, for the stock input. */
    method AddStock(posted: bool) returns (body: string, refetch: bool)
      modifies this`newStock
      ensures body == old(newStock)
      ensures refetch == posted
      ensures newStock == (if posted then "" else old(newStock))
    {
      body := newStock;
      refetch := posted;
      if posted {
        newStock := "";
      }
    }

    /**
     * Remove: sends a delete for the pattern and refetches once it resolves.
     * No local state changes, so the selection keeps a removed pattern.
     */
    method RemovePattern(pattern: PatternName, deleted: bool) returns (body: PatternName, refetch: bool)
      ensures body == pattern && refetch == deleted
    {
      body, refetch := pattern, deleted;
    }

    /** Remove for a stock: a delete request and a refetch, nothing local. */
    method RemoveStock(stock: string, deleted: bool) returns (body: string, refetch: bool)
      ensures body == stock && refetch == deleted
    {
      body, refetch := stock, deleted;
    }

    /**
     * Start Simulation: posts the current selection; a resolved response
     * replaces the held result as a whole, a rejected one leaves it alone.
     */
    method StartSimulation(response: Response<SimulationResult>) returns (requested: seq<PatternName>)
      modifies this`simulationResults
      ensures requested == selectedPatterns
      ensures simulationResults == (if response.Ok? then Some(response.data) else old(simulationResults))
      ensures response.Ok? ==> ShowsResults() && RenderedStocks(simulationResults) == response.data.Keys
    {
      requested := selectedPatterns;
      if response.Ok? {
        simulationResults := Some(response.data);
      }
    }

    /**
     * A checkbox change: the selection becomes `Toggle(selection, pattern)`,
     * so this checkbox flips, every other checkbox keeps its state, and the
     * selection stays free of duplicates.
     */
    method TogglePatternSelection(pattern: PatternName)
      requires Valid()
      modifies this`selectedPatterns
      ensures Valid()
      ensures selectedPatterns == Toggle(old(selectedPatterns), pattern)
      ensures Checked(pattern) <==> !old(Checked(pattern))
      ensures forall q :: q != pattern ==> (Checked(q) <==> old(Checked(q)))
    {
      ToggleKeepsNoDuplicates(selectedPatterns, pattern);
      selectedPatterns := Toggle(selectedPatterns, pattern);
    }
  }
}
