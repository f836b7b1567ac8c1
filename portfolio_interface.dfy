/**
 * The broker routing layer: the tool categories, the table of vendor
 * implementations, and `route_to_vendor`, which sends a method to the
 * configured vendor's implementation.
 */
module PortfolioInterface {
  import opened Common

  /** `TOOLS_CATEGORIES`: category names with their tool lists, in dict order. */
  const ToolsCategories: seq<(string, seq<string>)> := [
    ("account_operations", ["get_account_info", "get_current_positions", "get_position_details"]),
    ("trading_operations", ["execute_trade"]),
    ("order_operations", ["get_open_orders", "get_all_orders", "cancel_order", "modify_order"]),
    ("portfolio_analysis", ["get_watchlist_stocks", "screen_new_opportunities",
                            "get_last_iteration_summary", "get_trading_constraints"])
  ]

  const VendorList: seq<string> := ["alpaca"]

  /** `VENDOR_METHODS`: method name to vendor name to implementation (named by its function). */
  const VendorMethods: map<string, map<string, string>> := map[
    "get_account_info" := map["alpaca" := "get_alpaca_account_info"],
    "get_current_positions" := map["alpaca" := "get_alpaca_positions"],
    "get_position_details" := map["alpaca" := "get_alpaca_position_details"],
    "execute_trade" := map["alpaca" := "execute_alpaca_trade"],
    "get_open_orders" := map["alpaca" := "get_alpaca_open_orders"],
    "get_all_orders" := map["alpaca" := "get_alpaca_all_orders"],
    "cancel_order" := map["alpaca" := "cancel_alpaca_order"],
    "modify_order" := map["alpaca" := "modify_alpaca_order"]
  ]

  /** The first category of `cats` whose tools list `meth`; None where the source raises `ValueError`. */
  function FirstCategory(cats: seq<(string, seq<string>)>, meth: string): (r: Option<string>)
    ensures r.None? <==> forall i :: 0 <= i < |cats| ==> meth !in cats[i].1
    ensures r.Some? ==> exists i :: 0 <= i < |cats| && cats[i].0 == r.value && meth in cats[i].1
                                    && forall j :: 0 <= j < i ==> meth !in cats[j].1
  {
    if |cats| == 0 then None
    else if meth in cats[0].1 then Some(cats[0].0)
    else match FirstCategory(cats[1..], meth)
      case None => None
      case Some(c) =>
        var i :| 1 <= i < |cats| && cats[i].0 == c && meth in cats[i].1
                 && forall j :: 1 <= j < i ==> meth !in cats[j].1;
        Some(c)
  }

  /** `get_category_for_method(meth)`. */
  function GetCategoryForMethod(meth: string): Option<string> {
    FirstCategory(ToolsCategories, meth)
  }

  /** `get_vendor(category, meth)`: every operation goes to Alpaca for now. */
  function GetVendor(category: string, meth: Option<string>): (v: string)
    ensures v in VendorList
  {
    "alpaca"
  }

  /** What a vendor implementation does with the call's arguments: return a value or raise. */
  datatype CallOutcome = Returned(value: string) | Raised(error: string)

  datatype Routed =
    | RouteResult(implementation: string, value: string)
    | RouteValueError(message: string)
    | RouteRuntimeError(message: string)

  /**
   * `route_to_vendor(meth, ...)`. `call` gives the outcome of running an
   * implementation (named by its function) on the arguments.
   */
  function RouteToVendor(meth: string, call: string -> CallOutcome): (r: Routed)
    ensures meth !in VendorMethods ==> r.RouteValueError?
    ensures meth in VendorMethods ==>
              var impl := VendorMethods[meth]["alpaca"];
              r == match call(impl)
                   case Returned(v) => RouteResult(impl, v)
                   case Raised(e) => RouteRuntimeError("Vendor implementation failed for method '" + meth + "': " + e)
  {
    if meth !in VendorMethods then
      RouteValueError("Method '" + meth + "' does not require vendor routing")
    else
      RoutedMethodsHaveCategory(meth);
      match GetCategoryForMethod(meth)
      case None => RouteValueError("Method '" + meth + "' not found in any category")
      case Some(category) =>
        var vendor := GetVendor(category, Some(meth));
        if vendor !in VendorMethods[meth] then
          RouteValueError("Vendor '" + vendor + "' not supported for method '" + meth + "'")
        else
          var impl := VendorMethods[meth][vendor];
          match call(impl)
          case Returned(v) => RouteResult(impl, v)
          case Raised(e) => RouteRuntimeError("Vendor implementation failed for method '" + meth + "': " + e)
  }

  /**
   * Every routed method is listed in some category, and Alpaca implements
   * every one of them: `route_to_vendor`'s two inner `ValueError`s are unreachable.
   */
  lemma RoutedMethodsHaveCategory(meth: string)
    requires meth in VendorMethods
    ensures GetCategoryForMethod(meth).Some?
    ensures "alpaca" in VendorMethods[meth]
  {
    assert meth in ToolsCategories[0].1 || meth in ToolsCategories[1].1 || meth in ToolsCategories[2].1;
  }

  /** The category of each routed method is where its tool list says. */
  lemma RoutedCategories()
    ensures GetCategoryForMethod("execute_trade") == Some("trading_operations")
    ensures GetCategoryForMethod("cancel_order") == Some("order_operations")
    ensures GetCategoryForMethod("get_account_info") == Some("account_operations")
  {
    assert "execute_trade" !in ToolsCategories[0].1;
    assert "cancel_order" !in ToolsCategories[0].1 && "cancel_order" !in ToolsCategories[1].1;
  }
}
