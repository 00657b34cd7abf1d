/** The weekly report task of crm/tasks.py: check the GraphQL endpoint, query customers
    and orders, sum the revenue, log the report; on any failure of the GraphQL path, a
    report from the database instead; when that fails too, a failure result.

    What the endpoint and the database answer is an input; amounts are integer cents;
    the timestamp is an opaque string. */
module CrmReport {
  import opened Wrappers
  import opened Text
  import opened LogSink

  const FallbackReportLogPath: string := "/var/log/crm_report_log.txt"
  /** Written after each message that lands in the fallback location. */
  const FallbackReportNote: string := "Note: Using fallback log location " + FallbackReportLogPath + "\n"

  /** `order.get('totalAmount', 0)` as `float()` sees it: a missing key counts as 0, a
      value that does not convert (ValueError, TypeError) is skipped. */
  datatype Amount = AmountAbsent | AmountUnconvertible | AmountCents(cents: int)

  datatype OrderRow = OrderRow(id: string, totalAmount: Amount)
  datatype CustomerRow = CustomerRow(id: string, name: string, email: string)

  datatype HelloOutcome = HelloFailed(reason: string) | HelloAnswered(hello: Option<string>)

  /** The CRM query: failure, or the `customers` and `orders` keys (absent is None). */
  datatype CrmQueryOutcome =
    | CrmQueryFailed(reason: string)
    | CrmAnswered(customers: Option<seq<CustomerRow>>, orders: Option<seq<OrderRow>>)

  /** The database fallback: failure, or the two counts and the `Sum` aggregate. */
  datatype DatabaseOutcome =
    | DatabaseFailed(reason: string)
    | DatabaseCounts(customers: nat, orders: nat, revenueSum: Option<int>)

  datatype ReportMethod = Graphql | DatabaseFallback

  /** The result dictionary: `success` True with the statistics, or `success` False. */
  datatype Report =
    | Generated(timestamp: string, totalCustomers: nat, totalOrders: nat, totalRevenue: int, via: ReportMethod)
    | GenerationFailed(timestamp: string, error: string)

  predicate Success(r: Report) {
    r.Generated?
  }

  /** The `method` entry of the result. */
  function MethodName(r: Report): string {
    match r
    case Generated(_, _, _, _, via) => if via == Graphql then "graphql" else "database_fallback"
    case GenerationFailed(_, _) => "failed"
  }

  // ---------------------------------------------------------------------------
  // Revenue

  function Converted(a: Amount): Option<int> {
    match a
    case AmountAbsent => Some(0)
    case AmountUnconvertible => None
    case AmountCents(c) => Some(c)
  }

  /** The revenue accumulated over the orders, skipping those that do not convert. */
  function Revenue(orders: seq<OrderRow>): int {
    if orders == [] then 0
    else Revenue(orders[..|orders| - 1]) + Converted(orders[|orders| - 1].totalAmount).GetOr(0)
  }

  function Sum(xs: seq<int>): int {
    if xs == [] then 0 else Sum(xs[..|xs| - 1]) + xs[|xs| - 1]
  }

  /** The amounts that convert, in order. */
  function ConvertedAmounts(orders: seq<OrderRow>): (r: seq<int>)
    ensures |r| <= |orders|
  {
    if orders == [] then []
    else
      var last := Converted(orders[|orders| - 1].totalAmount);
      ConvertedAmounts(orders[..|orders| - 1]) + (if last.Some? then [last.value] else [])
  }

  /** The revenue is the sum of exactly the amounts that convert: an unconvertible
      amount neither counts nor stops the sum. */
  lemma {:induction false} RevenueIsSumOfConverted(orders: seq<OrderRow>)
    ensures Revenue(orders) == Sum(ConvertedAmounts(orders))
  {
    if orders != [] {
      var init := orders[..|orders| - 1];
      RevenueIsSumOfConverted(init);
      var c := ConvertedAmounts(init);
      var last := Converted(orders[|orders| - 1].totalAmount);
      if last.Some? {
        assert (c + [last.value])[..|c + [last.value]| - 1] == c;
      } else {
        assert c + [] == c;
      }
    }
  }

  /** Revenue over two batches of orders is the sum of their revenues. */
  lemma {:induction false} RevenueAppend(a: seq<OrderRow>, b: seq<OrderRow>)
    ensures Revenue(a + b) == Revenue(a) + Revenue(b)
  {
    if b == [] {
      assert a + b == a;
    } else {
      RevenueAppend(a, b[..|b| - 1]);
      assert (a + b)[..|a + b| - 1] == a + b[..|b| - 1];
    }
  }

  /** An order whose amount does not convert can be dropped without changing the revenue. */
  lemma RevenueIgnoresUnconvertible(a: seq<OrderRow>, o: OrderRow, b: seq<OrderRow>)
    requires o.totalAmount == AmountUnconvertible
    ensures Revenue(a + [o] + b) == Revenue(a + b)
  {
    RevenueAppend(a + [o], b);
    RevenueAppend(a, b);
    assert (a + [o])[..|a + [o]| - 1] == a;
  }

  /** No amount converts exactly when every order's amount is unconvertible; a missing
      amount converts (to 0). */
  lemma {:induction false} NothingConvertedIffAllUnconvertible(orders: seq<OrderRow>)
    ensures ConvertedAmounts(orders) == []
        <==> forall k :: 0 <= k < |orders| ==> orders[k].totalAmount.AmountUnconvertible?
  {
    if orders != [] {
      var init := orders[..|orders| - 1];
      NothingConvertedIffAllUnconvertible(init);
      forall k | 0 <= k < |init| ensures init[k] == orders[k] {}
    }
  }

  /** The accumulator loop over the orders. `total_revenue` starts as the int 0 and
      becomes a float with the first amount added, which `isFloat` records. */
  method TotalRevenue(orders: seq<OrderRow>) returns (total: int, isFloat: bool)
    ensures total == Revenue(orders)
    ensures isFloat <==> ConvertedAmounts(orders) != []
  {
    total, isFloat := 0, false;
    var i := 0;
    while i < |orders|
      invariant 0 <= i <= |orders|
      invariant total == Revenue(orders[..i])
      invariant isFloat <==> ConvertedAmounts(orders[..i]) != []
    {
      assert orders[..i + 1][..i] == orders[..i];
      match orders[i].totalAmount {
        case AmountAbsent => total, isFloat := total + 0, true;
        case AmountUnconvertible =>
        case AmountCents(c) => total, isFloat := total + c, true;
      }
      i := i + 1;
    }
    assert orders[..|orders|] == orders;
  }

  /** Average order value in cents; defined only when there is an order. */
  function AverageOrderValue(revenue: int, orders: nat): int
    requires orders > 0
  {
    revenue / orders
  }

  // ---------------------------------------------------------------------------
  // Messages and results

  /** `str()` of the revenue: a float prints with a decimal point, an int without. */
  function RevenueText(revenue: int, isFloat: bool): string {
    if isFloat then CentsToString(revenue) else IntToString(revenue)
  }

  function ReportLine(ts: string, customers: nat, orders: nat, revenueText: string): string {
    ts + " - Report: " + NatToString(customers) + " customers, " + NatToString(orders)
      + " orders, $" + revenueText + " revenue"
  }

  function CustomerDetailLine(ts: string, tag: string, customers: nat): string {
    ts + tag + " Customer details: " + NatToString(customers) + " total customers"
  }

  function OrderDetailLine(ts: string, tag: string, orders: nat): string {
    ts + tag + " Order details: " + NatToString(orders) + " total orders"
  }

  function AverageLinePrefix(ts: string, tag: string): string {
    ts + tag + " Average order value: $"
  }

  function AverageLine(ts: string, tag: string, revenue: int, orders: nat): string
    requires orders > 0
  {
    AverageLinePrefix(ts, tag) + CentsToString(AverageOrderValue(revenue, orders))
  }

  /** The detail lines: customers only when there are some, orders and the average only
      when there are orders. `tag` is "" on the GraphQL path, " [FALLBACK]" otherwise. */
  function DetailLines(ts: string, tag: string, customers: nat, orders: nat, revenue: int): seq<string> {
    (if customers > 0 then [CustomerDetailLine(ts, tag, customers)] else [])
      + (if orders > 0 then [OrderDetailLine(ts, tag, orders), AverageLine(ts, tag, revenue, orders)] else [])
  }

  function GraphqlMessages(ts: string, customers: nat, orders: nat, revenue: int, isFloat: bool): seq<string> {
    [ReportLine(ts, customers, orders, RevenueText(revenue, isFloat)), ts + " CRM report generated successfully via GraphQL"]
      + DetailLines(ts, "", customers, orders, revenue) + [""]
  }

  /** What `_fallback_database_report` logs. */
  function FallbackMessages(ts: string, db: DatabaseOutcome): seq<string> {
    match db
    case DatabaseFailed(reason) => [ts + " [FALLBACK] Database report generation also failed: " + reason]
    case DatabaseCounts(customers, orders, revenueSum) =>
      var revenue := revenueSum.GetOr(0);
      [ts + " [FALLBACK] Using direct database access", ReportLine(ts, customers, orders, CentsToString(revenue)),
       ts + " [FALLBACK] CRM report generated successfully via database"]
        + DetailLines(ts, " [FALLBACK]", customers, orders, revenue) + [""]
  }

  /** What `_fallback_database_report` returns. */
  function FallbackReport(ts: string, db: DatabaseOutcome): Report {
    match db
    case DatabaseFailed(reason) => GenerationFailed(ts, reason)
    case DatabaseCounts(customers, orders, revenueSum) =>
      Generated(ts, customers, orders, revenueSum.GetOr(0), DatabaseFallback)
  }

  /** The first line `generate_crm_report` logs: the result of the endpoint check. */
  function HelloMessage(ts: string, hello: HelloOutcome): string {
    match hello
    case HelloFailed(reason) => ts + " GraphQL endpoint check failed: " + reason
    case HelloAnswered(h) => ts + " GraphQL endpoint responsive: " + h.GetOr("No response")
  }

  /** The line logged when the CRM query fails. */
  function CrmFailureMessage(ts: string, reason: string): string {
    ts + " GraphQL report generation failed: " + reason
  }

  /** What the CRM query phase logs: the failure and the fallback's lines, or the report. */
  function QueryMessages(ts: string, crm: CrmQueryOutcome, db: DatabaseOutcome): seq<string> {
    match crm
    case CrmQueryFailed(reason) => [CrmFailureMessage(ts, reason)] + FallbackMessages(ts, db)
    case CrmAnswered(cs, os) =>
      GraphqlMessages(ts, |cs.GetOr([])|, |os.GetOr([])|, Revenue(os.GetOr([])), ConvertedAmounts(os.GetOr([])) != [])
  }

  /** What the CRM query phase returns. */
  function QueryOutcome(ts: string, crm: CrmQueryOutcome, db: DatabaseOutcome): Report {
    match crm
    case CrmQueryFailed(_) => FallbackReport(ts, db)
    case CrmAnswered(cs, os) => Generated(ts, |cs.GetOr([])|, |os.GetOr([])|, Revenue(os.GetOr([])), Graphql)
  }

  /** What `generate_crm_report` logs after the endpoint check. */
  function AfterHelloMessages(ts: string, hello: HelloOutcome, crm: CrmQueryOutcome, db: DatabaseOutcome): seq<string> {
    if hello.HelloFailed? then FallbackMessages(ts, db) else QueryMessages(ts, crm, db)
  }

  /** Everything `generate_crm_report` logs, in order. */
  function ReportMessages(ts: string, hello: HelloOutcome, crm: CrmQueryOutcome, db: DatabaseOutcome): seq<string> {
    [HelloMessage(ts, hello)] + AfterHelloMessages(ts, hello, crm, db)
  }

  /** What `generate_crm_report` returns. */
  function ReportOutcome(ts: string, hello: HelloOutcome, crm: CrmQueryOutcome, db: DatabaseOutcome): Report {
    if hello.HelloFailed? then FallbackReport(ts, db) else QueryOutcome(ts, crm, db)
  }

  // ---------------------------------------------------------------------------
  // Properties

  /** On GraphQL success the counts are the list lengths (absent lists count as empty),
      the revenue is that of the orders, and the method is `graphql`. */
  lemma GraphqlReport(ts: string, h: Option<string>, cs: Option<seq<CustomerRow>>, os: Option<seq<OrderRow>>,
                      db: DatabaseOutcome)
    ensures var r := ReportOutcome(ts, HelloAnswered(h), CrmAnswered(cs, os), db);
      && Success(r) && MethodName(r) == "graphql"
      && r.totalCustomers == (if cs.Some? then |cs.value| else 0)
      && r.totalOrders == (if os.Some? then |os.value| else 0)
      && r.totalRevenue == Sum(ConvertedAmounts(os.GetOr([])))
  {
    RevenueIsSumOfConverted(os.GetOr([]));
  }

  /** A failed endpoint check goes straight to the fallback: the CRM query plays no part
      in the result or the log. */
  lemma HelloFailureSkipsQuery(ts: string, reason: string, crm1: CrmQueryOutcome, crm2: CrmQueryOutcome, db: DatabaseOutcome)
    ensures ReportOutcome(ts, HelloFailed(reason), crm1, db) == FallbackReport(ts, db)
    ensures ReportMessages(ts, HelloFailed(reason), crm1, db) == ReportMessages(ts, HelloFailed(reason), crm2, db)
  {
  }

  lemma SuffixOfAppend<T>(a: seq<T>, b: seq<T>)
    ensures |a + b| >= |b| && (a + b)[|a + b| - |b|..] == b
  {
  }

  lemma AppendAssoc<T>(a: seq<T>, b: seq<T>, c: seq<T>)
    ensures a + (b + c) == (a + b) + c
  {
  }

  /** Every failure of the GraphQL path ends in the fallback, whose result is returned and
      whose messages close the log of the run. */
  lemma GraphqlFailureFallsBack(ts: string, hello: HelloOutcome, crm: CrmQueryOutcome, db: DatabaseOutcome)
    requires hello.HelloFailed? || crm.CrmQueryFailed?
    ensures ReportOutcome(ts, hello, crm, db) == FallbackReport(ts, db)
    ensures var m := ReportMessages(ts, hello, crm, db);
      |m| >= |FallbackMessages(ts, db)| && m[|m| - |FallbackMessages(ts, db)|..] == FallbackMessages(ts, db)
  {
    var f := FallbackMessages(ts, db);
    if hello.HelloFailed? {
      SuffixOfAppend([HelloMessage(ts, hello)], f);
    } else {
      var c := CrmFailureMessage(ts, crm.reason);
      AppendAssoc([HelloMessage(ts, hello)], [c], f);
      SuffixOfAppend([HelloMessage(ts, hello)] + [c], f);
    }
  }

  /** The GraphQL report line shows the revenue as the int 0 when no amount converts
      (an empty or missing order list included), and as the float sum of the converted
      amounts otherwise. */
  lemma GraphqlRevenueShown(ts: string, cs: Option<seq<CustomerRow>>, os: Option<seq<OrderRow>>, db: DatabaseOutcome)
    ensures var orders := os.GetOr([]);
      var line := QueryMessages(ts, CrmAnswered(cs, os), db)[0];
      var shown := if forall k :: 0 <= k < |orders| ==> orders[k].totalAmount.AmountUnconvertible?
                   then "0" else CentsToString(Sum(ConvertedAmounts(orders)));
      line == ReportLine(ts, |cs.GetOr([])|, |orders|, shown)
  {
    var orders := os.GetOr([]);
    NothingConvertedIffAllUnconvertible(orders);
    RevenueIsSumOfConverted(orders);
    assert IntToString(0) == "0";
  }

  /** With no customers and no orders the line reads "... 0 customers, 0 orders, $0 revenue". */
  lemma EmptyAnswerReportLine(ts: string, db: DatabaseOutcome)
    ensures QueryMessages(ts, CrmAnswered(Some([]), Some([])), db)[0] == ReportLine(ts, 0, 0, "0")
  {
    GraphqlRevenueShown(ts, Some([]), Some([]), db);
  }

  /** How a logged revenue text may show `revenue`: as a float, or as the int 0. */
  predicate RevenueShownAs(text: string, revenue: int) {
    text == CentsToString(revenue) || (revenue == 0 && text == "0")
  }

  /** The fallback's report line carries the counts and revenue it returns; its failure
      line carries the error it returns. */
  lemma FallbackLogAgreesWithResult(ts: string, db: DatabaseOutcome)
    ensures var r, f := FallbackReport(ts, db), FallbackMessages(ts, db);
      && (Success(r) ==> |f| >= 2 && f[1] == ReportLine(ts, r.totalCustomers, r.totalOrders, CentsToString(r.totalRevenue)))
      && (!Success(r) ==> |f| >= 1 && f[|f| - 1] == ts + " [FALLBACK] Database report generation also failed: " + r.error)
  {
  }

  /** The log of a run agrees with its result: a successful run logs a report line with
      the returned counts and revenue, and a failed run ends with the line carrying the
      returned error. */
  lemma ReportLogAgreesWithResult(ts: string, hello: HelloOutcome, crm: CrmQueryOutcome, db: DatabaseOutcome)
    ensures var r := ReportOutcome(ts, hello, crm, db);
      var m := ReportMessages(ts, hello, crm, db);
      && (Success(r) ==> exists text :: RevenueShownAs(text, r.totalRevenue)
                                         && ReportLine(ts, r.totalCustomers, r.totalOrders, text) in m)
      && (!Success(r) ==> m[|m| - 1] == ts + " [FALLBACK] Database report generation also failed: " + r.error)
  {
    var r := ReportOutcome(ts, hello, crm, db);
    var m := ReportMessages(ts, hello, crm, db);
    if hello.HelloFailed? || crm.CrmQueryFailed? {
      GraphqlFailureFallsBack(ts, hello, crm, db);
      FallbackLogAgreesWithResult(ts, db);
      var f := FallbackMessages(ts, db);
      var at := |m| - |f|;
      assert m[at..] == f;
      if Success(r) {
        assert m[at + 1] == f[1];
        assert RevenueShownAs(CentsToString(r.totalRevenue), r.totalRevenue);
      } else {
        assert m[|m| - 1] == f[|f| - 1];
      }
    } else {
      GraphqlReportLineAgrees(ts, hello, crm, db);
    }
  }

  /** On the GraphQL path the second logged line is the report line for the result. */
  lemma GraphqlReportLineAgrees(ts: string, hello: HelloOutcome, crm: CrmQueryOutcome, db: DatabaseOutcome)
    requires hello.HelloAnswered? && crm.CrmAnswered?
    ensures var r := ReportOutcome(ts, hello, crm, db);
      var m := ReportMessages(ts, hello, crm, db);
      && Success(r) && |m| >= 2
      && exists text :: RevenueShownAs(text, r.totalRevenue) && m[1] == ReportLine(ts, r.totalCustomers, r.totalOrders, text)
  {
    var orders := crm.orders.GetOr([]);
    var isFloat := ConvertedAmounts(orders) != [];
    var text := RevenueText(Revenue(orders), isFloat);
    RevenueIsSumOfConverted(orders);
    assert IntToString(0) == "0";
    assert RevenueShownAs(text, Revenue(orders));
  }

  predicate StartsWith(s: string, prefix: string) {
    |prefix| <= |s| && s[..|prefix|] == prefix
  }

  /** The average line appears only when there are orders (so `/` never sees zero), and
      the customer and order lines only when their counts are positive. */
  lemma DetailLinesShape(ts: string, tag: string, customers: nat, orders: nat, revenue: int)
    ensures var d := DetailLines(ts, tag, customers, orders, revenue);
      && |d| == (if customers > 0 then 1 else 0) + (if orders > 0 then 2 else 0)
      && (orders > 0 ==> d[|d| - 1] == AverageLine(ts, tag, revenue, orders))
      && (orders == 0 ==> forall k :: 0 <= k < |d| ==> !StartsWith(d[k], AverageLinePrefix(ts, tag)))
      && (customers > 0 ==> d[0] == CustomerDetailLine(ts, tag, customers))
  {
    if orders == 0 && customers > 0 {
      var line := CustomerDetailLine(ts, tag, customers);
      var n := |ts + tag|;
      assert line[n + 1] == 'C';
      assert AverageLinePrefix(ts, tag)[n + 1] == 'A';
    }
  }

  // ---------------------------------------------------------------------------
  // The task

  function ReportEntry(message: string): Entry {
    Entry(message + "\n", FallbackReportNote, "Failed to write log: " + message)
  }

  /** The entries of the logged messages, one for one. */
  function ReportEntries(messages: seq<string>): (es: seq<Entry>)
    ensures |es| == |messages|
  {
    seq(|messages|, i requires 0 <= i < |messages| => ReportEntry(messages[i]))
  }

  lemma ReportEntriesAppend(a: seq<string>, b: seq<string>)
    ensures ReportEntries(a + b) == ReportEntries(a) + ReportEntries(b)
  {
  }

  /** `_log_message`: one write through the failover log. */
  method LogMessage(log: FailoverLog, message: string)
    modifies log
    ensures log.primaryWritable == old(log.primaryWritable) && log.secondaryWritable == old(log.secondaryWritable)
    ensures log.State() == Deliver(old(log.State()), log.primaryWritable, log.secondaryWritable, ReportEntry(message))
  {
    log.Write(ReportEntry(message));
  }

  /** The lines of one phase of the report, each through `_log_message`, in order. */
  method LogMessages(log: FailoverLog, messages: seq<string>)
    modifies log
    ensures log.primaryWritable == old(log.primaryWritable) && log.secondaryWritable == old(log.secondaryWritable)
    ensures log.State() == DeliverAll(old(log.State()), log.primaryWritable, log.secondaryWritable, ReportEntries(messages))
  {
    ghost var start := log.State();
    ghost var p, q := log.primaryWritable, log.secondaryWritable;
    var i := 0;
    while i < |messages|
      invariant 0 <= i <= |messages|
      invariant log.primaryWritable == p && log.secondaryWritable == q
      invariant log.State() == DeliverAll(start, p, q, ReportEntries(messages[..i]))
    {
      ghost var done := ReportEntries(messages[..i]);
      LogMessage(log, messages[i]);
      assert ReportEntries(messages[..i + 1]) == done + [ReportEntry(messages[i])] by {
        assert messages[..i + 1][..i] == messages[..i];
      }
      DeliverAllSnoc(start, p, q, done, ReportEntry(messages[i]));
      i := i + 1;
    }
    assert messages[..|messages|] == messages;
  }

  /** `_fallback_database_report`. */
  method FallbackDatabaseReport(ts: string, db: DatabaseOutcome, log: FailoverLog) returns (report: Report)
    modifies log
    ensures report == FallbackReport(ts, db)
    ensures log.primaryWritable == old(log.primaryWritable) && log.secondaryWritable == old(log.secondaryWritable)
    ensures log.State() == DeliverAll(old(log.State()), log.primaryWritable, log.secondaryWritable,
                                      ReportEntries(FallbackMessages(ts, db)))
  {
    match db {
      case DatabaseFailed(reason) =>
        report := GenerationFailed(ts, reason);
      case DatabaseCounts(customers, orders, revenueSum) =>
        var revenue := revenueSum.GetOr(0);
        report := Generated(ts, customers, orders, revenue, DatabaseFallback);
    }
    LogMessages(log, FallbackMessages(ts, db));
  }

  /** Logging `first`, then running a phase that logs `rest`, is logging `[first] + rest`. */
  lemma LoggedInSequence(s: Sinks, primaryOk: bool, secondaryOk: bool, first: string, rest: seq<string>)
    ensures DeliverAll(s, primaryOk, secondaryOk, ReportEntries([first] + rest))
         == DeliverAll(Deliver(s, primaryOk, secondaryOk, ReportEntry(first)), primaryOk, secondaryOk, ReportEntries(rest))
  {
    ReportEntriesAppend([first], rest);
    assert ReportEntries([first]) == [ReportEntry(first)] by {
      assert [first][..0] == [];
    }
    DeliverAllAppend(s, primaryOk, secondaryOk, [ReportEntry(first)], ReportEntries(rest));
    assert DeliverAll(s, primaryOk, secondaryOk, [ReportEntry(first)]) == Deliver(s, primaryOk, secondaryOk, ReportEntry(first)) by {
      assert [ReportEntry(first)][..0] == [];
    }
  }

  /** The CRM query phase of `generate_crm_report`, after a responsive endpoint check:
      the report from the query, or the fallback when the query fails. */
  method QueryReport(ts: string, crm: CrmQueryOutcome, db: DatabaseOutcome, log: FailoverLog) returns (report: Report)
    modifies log
    ensures report == QueryOutcome(ts, crm, db)
    ensures log.primaryWritable == old(log.primaryWritable) && log.secondaryWritable == old(log.secondaryWritable)
    ensures log.State() == DeliverAll(old(log.State()), log.primaryWritable, log.secondaryWritable,
                                      ReportEntries(QueryMessages(ts, crm, db)))
  {
    match crm {
      case CrmQueryFailed(reason) =>
        var failure := CrmFailureMessage(ts, reason);
        ghost var start := log.State();
        LogMessage(log, failure);
        report := FallbackDatabaseReport(ts, db, log);
        LoggedInSequence(start, log.primaryWritable, log.secondaryWritable, failure, FallbackMessages(ts, db));
      case CrmAnswered(cs, os) =>
        var customers := cs.GetOr([]);
        var orders := os.GetOr([]);
        var revenue, isFloat := TotalRevenue(orders);
        report := Generated(ts, |customers|, |orders|, revenue, Graphql);
        LogMessages(log, GraphqlMessages(ts, |customers|, |orders|, revenue, isFloat));
    }
  }

  /** `generate_crm_report`. */
  method GenerateCrmReport(ts: string, hello: HelloOutcome, crm: CrmQueryOutcome, db: DatabaseOutcome, log: FailoverLog)
      returns (report: Report)
    modifies log
    ensures report == ReportOutcome(ts, hello, crm, db)
    ensures log.primaryWritable == old(log.primaryWritable) && log.secondaryWritable == old(log.secondaryWritable)
    ensures log.State() == DeliverAll(old(log.State()), log.primaryWritable, log.secondaryWritable,
                                      ReportEntries(ReportMessages(ts, hello, crm, db)))
  {
    ghost var start := log.State();
    var first := HelloMessage(ts, hello);
    LogMessage(log, first);
    if hello.HelloFailed? {
      report := FallbackDatabaseReport(ts, db, log);
    } else {
      report := QueryReport(ts, crm, db, log);
    }
    LoggedInSequence(start, log.primaryWritable, log.secondaryWritable, first, AfterHelloMessages(ts, hello, crm, db));
  }
}
