/**
 * The small lookup tools of the examples: order status (two variants),
 * capital cities (three variants) and stock prices, each a table lookup
 * with its own key normalisation and its own answer for a miss; and how an
 * agent's final answer, stored under its output key, is read back.
 */
module Lookups {
  import opened Wrappers
  import opened Values
  import Text

  // ---------------------------------------------------------------------
  // Order status with a backend
  // ---------------------------------------------------------------------

  datatype StatusDetails = StatusDetails(state: string, tracking: string)

  datatype Order = Order(state: string, trackingNumber: string)

  datatype OrderStatusResult = OrderStatusResult(status: string, order: Order, errorMessage: string)

  const KnownOrder := "12345"
  const KnownDetails := StatusDetails("shipped", "1Z9...")
  const ZeroOrder := Order("", "")

  /** fetchStatusFromBackend: only the one order, matched exactly. */
  function FetchStatusFromBackend(orderID: string): Option<StatusDetails> {
    if orderID == KnownOrder then Some(KnownDetails) else None
  }

  function OrderNotFound(orderID: string): string {
    "Order ID " + orderID + " not found."
  }

  /** lookupOrderStatus */
  function LookupOrderStatus(orderID: string): OrderStatusResult {
    match FetchStatusFromBackend(orderID)
    case Some(d) => OrderStatusResult("success", Order(d.state, d.tracking), "")
    case None => OrderStatusResult("error", ZeroOrder, OrderNotFound(orderID))
  }

  /**
   * The lookup succeeds exactly for the known order; success carries the
   * backend's state and tracking number and no message, an error carries a
   * zero order and a message naming the order as given.
   */
  lemma OrderStatusCharacterized(orderID: string)
    ensures var r := LookupOrderStatus(orderID);
            (r.status == "success" <==> orderID == KnownOrder) &&
            (r.status == "success" || r.status == "error") &&
            (r.status == "success" ==> r.order == Order("shipped", "1Z9...") && r.errorMessage == "") &&
            (r.status == "error" ==> r.order == ZeroOrder && r.errorMessage == OrderNotFound(orderID))
  {
  }

  /** Exactly one of the order and the error message is filled in. */
  lemma OrderOrMessage(orderID: string)
    ensures var r := LookupOrderStatus(orderID);
            (r.order != ZeroOrder) != (r.errorMessage != "")
  {
    var r := LookupOrderStatus(orderID);
    if orderID == KnownOrder {
      assert r.order.state == "shipped";
      assert r.order.state != "";
    } else {
      assert |r.errorMessage| > 0;
    }
  }

  /** The error message gives back the order ID as it was asked for. */
  lemma {:induction false} NotFoundNamesOrder(orderID: string)
    ensures var m := OrderNotFound(orderID);
            |m| == |orderID| + 20 && m[9..9 + |orderID|] == orderID
  {
    var m := OrderNotFound(orderID);
    assert m == "Order ID " + orderID + " not found.";
    assert |"Order ID "| == 9;
  }

  // ---------------------------------------------------------------------
  // Order status by switch
  // ---------------------------------------------------------------------

  /** retrieveOrderById: two known orders; every other ID reads as complete. */
  function RetrieveOrderById(orderID: string): (status: string)
    ensures status == "Shipped" || status == "Processing" || status == "Complete"
  {
    if orderID == "order_001" then "Shipped"
    else if orderID == "order_002" then "Processing"
    else "Complete"
  }

  /** Each status names exactly the orders that lead to it; matching is exact. */
  lemma RetrieveCharacterized(orderID: string)
    ensures RetrieveOrderById(orderID) == "Shipped" <==> orderID == "order_001"
    ensures RetrieveOrderById(orderID) == "Processing" <==> orderID == "order_002"
    ensures RetrieveOrderById(orderID) == "Complete" <==> orderID != "order_001" && orderID != "order_002"
  {
  }

  /** The match is case-sensitive: an upper-cased known ID is an unknown one. */
  lemma RetrieveCaseSensitive()
    ensures RetrieveOrderById("ORDER_001") == "Complete"
  {
    assert "ORDER_001"[0] != "order_001"[0];
    assert "ORDER_001"[0] != "order_002"[0];
  }

  // ---------------------------------------------------------------------
  // Capital cities
  // ---------------------------------------------------------------------

  /** The four-country table of the deployed and the full-example tools. */
  const Capitals: map<string, string> :=
    map["united states" := "Washington, D.C.", "canada" := "Ottawa", "france" := "Paris", "japan" := "Tokyo"]

  /** The three-country table of the tool snippet. */
  const SnippetCapitals: map<string, string> :=
    map["france" := "Paris", "japan" := "Tokyo", "canada" := "Ottawa"]

  datatype CapitalResult = CapitalResult(result: string, errorMessage: string)

  function CouldNotFind(country: string): string {
    "Sorry, I couldn't find the capital for " + country + "."
  }

  function DoNotKnow(country: string): string {
    "Sorry, I don't know the capital of " + country + "."
  }

  /** getCapitalCity of the deployed agent: a capital or an error message, never both. */
  function GetCapitalCity(country: string): CapitalResult {
    var key := Text.ToLower(country);
    if key !in Capitals then CapitalResult("", CouldNotFind(country))
    else CapitalResult(Capitals[key], "")
  }

  /** A known country gives its capital, an unknown one the message naming it as given; never both, never neither. */
  lemma CapitalCharacterized(country: string)
    ensures var r := GetCapitalCity(country);
            (Text.ToLower(country) in Capitals ==> r == CapitalResult(Capitals[Text.ToLower(country)], "")) &&
            (Text.ToLower(country) !in Capitals ==> r == CapitalResult("", CouldNotFind(country))) &&
            ((r.result != "") != (r.errorMessage != ""))
  {
    var key := Text.ToLower(country);
    if key in Capitals {
      assert Capitals[key] != "";
    }
  }

  /** The lookup ignores letter case. */
  lemma CapitalIgnoresCase(country: string)
    ensures GetCapitalCity(Text.ToUpper(country)).result == GetCapitalCity(country).result
  {
    Text.LowerOfUpper(country);
  }

  lemma FranceInCapitals()
    ensures GetCapitalCity("FRANCE") == CapitalResult("Paris", "")
  {
    assert Text.ToLower("FRANCE") == "france";
  }

  /** getCapitalCity of the full example: the answer, capital or apology, always under "result". */
  function CapitalAnswer(country: string): map<string, Value> {
    var key := Text.ToLower(country);
    map["result" := Str(if key in Capitals then Capitals[key] else CouldNotFind(country))]
  }

  /** getCapitalCity of the snippet: three countries, and a different apology. */
  function SnippetCapitalAnswer(country: string): map<string, Value> {
    var key := Text.ToLower(country);
    map["result" := Str(if key in SnippetCapitals then SnippetCapitals[key] else DoNotKnow(country))]
  }

  /** Both versions answer under "result" alone, and agree with the deployed tool's result or message. */
  lemma CapitalAnswersAgree(country: string)
    ensures CapitalAnswer(country).Keys == {"result"} && SnippetCapitalAnswer(country).Keys == {"result"}
    ensures var r := GetCapitalCity(country);
            CapitalAnswer(country)["result"] == Str(if r.result != "" then r.result else r.errorMessage)
    ensures Text.ToLower(country) in SnippetCapitals ==> SnippetCapitalAnswer(country) == CapitalAnswer(country)
  {
    CapitalCharacterized(country);
  }

  /** The snippet does not know the United States, which the full example does. */
  lemma SnippetMissesUnitedStates()
    ensures CapitalAnswer("United States")["result"] == Str("Washington, D.C.")
    ensures SnippetCapitalAnswer("United States")["result"] == Str(DoNotKnow("United States"))
  {
    assert Text.ToLower("United States") == "united states";
  }

  // ---------------------------------------------------------------------
  // Agents that store their final answer
  // ---------------------------------------------------------------------

  /** The parts of an llmagent configuration that decide tools and output storage. */
  datatype AgentConfig = AgentConfig(name: string, tools: seq<string>, outputKey: string, hasOutputSchema: bool)

  const CapitalToolAgent := AgentConfig("capital_agent_tool", ["get_capital_city"], "capital_tool_result", false)
  const StructuredInfoAgent := AgentConfig("structured_info_agent_schema", [], "structured_info_result", true)
  const StructuredCapitalAgent := AgentConfig("structured_capital_agent", [], "found_capital", true)

  /** An agent with an output schema runs without tools. */
  predicate SchemaWithoutTools(a: AgentConfig) {
    a.hasOutputSchema ==> a.tools == []
  }

  /** The runtime's storing of an agent's final text under its output key. */
  function StoreOutput(kv: State, a: AgentConfig, finalText: string): (r: State)
    ensures a.outputKey != "" ==> a.outputKey in r && r[a.outputKey] == Str(finalText)
    ensures forall k :: k in kv && k != a.outputKey ==> k in r && r[k] == kv[k]
  {
    if a.outputKey == "" then kv else kv[a.outputKey := Str(finalText)]
  }

  /** What callAgent shows from the state: a stored text as it is, any other value in its %v form, nothing for a missing key. */
  function ReadBack(kv: State, outputKey: string): Option<string> {
    if outputKey == "" || outputKey !in kv then None
    else match kv[outputKey]
      case Str(s) => Some(s)
      case v => Some(Show(v))
  }

  /** callAgent reads back the text the agent stored, for every agent with an output key. */
  lemma StoredOutputReadBack(kv: State, a: AgentConfig, finalText: string)
    requires a.outputKey != ""
    ensures ReadBack(StoreOutput(kv, a, finalText), a.outputKey) == Some(finalText)
  {
  }

  /** The three configured agents keep schema and tools apart and store under distinct keys. */
  lemma AgentsConfigured()
    ensures SchemaWithoutTools(CapitalToolAgent) && SchemaWithoutTools(StructuredInfoAgent) &&
            SchemaWithoutTools(StructuredCapitalAgent)
    ensures CapitalToolAgent.outputKey != StructuredInfoAgent.outputKey
  {
  }

  // ---------------------------------------------------------------------
  // Stock prices
  // ---------------------------------------------------------------------

  /** mockStockPrices; prices are kept as the text of their float literals. */
  const StockPrices: map<string, Value> :=
    map["GOOG" := Float("600.6"), "AAPL" := Float("123.4"), "MSFT" := Float("234.5")]

  const NoData := "No data found for symbol"

  /** getStockPrice: the symbol as given, with its price or an error. */
  function GetStockPrice(symbol: string): map<string, Value> {
    var key := Text.ToUpper(symbol);
    if key in StockPrices then map["symbol" := Str(symbol), "price" := StockPrices[key]]
    else map["symbol" := Str(symbol), "error" := Str(NoData)]
  }

  /** A hit carries the symbol as given and the stored price; a miss the symbol and the error, never a price. */
  lemma StockPriceCharacterized(symbol: string)
    ensures var r := GetStockPrice(symbol);
            "symbol" in r && r["symbol"] == Str(symbol) &&
            ("price" in r <==> Text.ToUpper(symbol) in StockPrices) &&
            ("error" in r <==> Text.ToUpper(symbol) !in StockPrices) &&
            ("price" in r ==> r["price"] == StockPrices[Text.ToUpper(symbol)]) &&
            ("error" in r ==> r["error"] == Str(NoData))
  {
  }

  /** The lookup ignores letter case; only the echoed symbol differs. */
  lemma StockIgnoresCase(symbol: string)
    ensures GetStockPrice(Text.ToLower(symbol)) == GetStockPrice(symbol)["symbol" := Str(Text.ToLower(symbol))]
  {
    Text.UpperOfLower(symbol);
    var a := GetStockPrice(Text.ToLower(symbol));
    var b := GetStockPrice(symbol)["symbol" := Str(Text.ToLower(symbol))];
    assert a.Keys == b.Keys;
  }

  lemma LowerCaseGoogle()
    ensures var r := GetStockPrice("goog"); "price" in r && r["price"] == Float("600.6")
  {
    assert Text.ToUpper("goog") == "GOOG";
  }
}
