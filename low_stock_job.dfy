/** The scheduled jobs of crm/cron.py: the CRM heartbeat and the low-stock replenishment
    job, which asks the GraphQL endpoint to restock and falls back to updating the
    product store directly when that attempt reports failure.

    The HTTP exchange is an input (`RemoteResponse`); the product store is an array of
    products in store iteration order; store failures on the fallback path are an input
    (`StoreFault`); the timestamp is an opaque string. */
module LowStockJob {
  import opened Wrappers
  import opened Text
  import opened LogSink
  import opened RestockPolicy

  const FallbackLogPath: string := "/var/log/low_stock_updates_log.txt"

  /** `stock__lt=10` and `product.stock += 10`, written inline in crm/cron.py. */
  const Threshold: int := DefaultThreshold
  const Amount: int := DefaultRestockAmount

  /** One element of `updatedProducts` in the mutation payload. */
  datatype RemoteProduct = RemoteProduct(id: string, name: string, stock: int)

  /** The JSON body of a 200 reply. */
  datatype GraphqlBody =
    | TopLevelErrors(rendered: string)
      // the body has an `errors` key; `rendered` is how Python prints its value
    | MutationPayload(updatedProducts: seq<RemoteProduct>, successMessage: string, errors: Option<seq<string>>)
      // `data.updateLowStockProducts`; a null `updatedProducts` is the empty sequence
    | Unreadable(reason: string)
      // any other exception while reading the body (a missing `data` key, ...); a body that
      // is not JSON lands here with requests before 2.27, whose `json()` raises ValueError,
      // and in `RequestFailed` from 2.27 on, where it raises a RequestException subclass

  datatype RemoteResponse =
    | RequestFailed(reason: string)                      // requests.exceptions.RequestException
    | HttpReply(status: int, text: string, body: GraphqlBody)

  /** Failures of the store on the fallback path: the low-stock query raises, or the
      save of the qualifying product with 0-based position `rank` among the qualifying
      ones raises. */
  datatype StoreFault = NoFault | QueryFails(reason: string) | SaveFails(rank: nat, reason: string)

  /** Python truthiness of the mutation's `errors` field. */
  predicate HasErrors(errors: Option<seq<string>>) {
    errors.Some? && errors.value != []
  }

  /** `_update_via_graphql` returns True exactly on this response. */
  predicate RemoteSucceeded(r: RemoteResponse) {
    && r.HttpReply?
    && r.status == 200
    && r.body.MutationPayload?
    && !HasErrors(r.body.errors)
  }

  // ---------------------------------------------------------------------------
  // Log texts

  function Quoted(x: string): string {
    "'" + x + "'"
  }

  function QuotedList(xs: seq<string>): string {
    if xs == [] then ""
    else if |xs| == 1 then Quoted(xs[0])
    else Quoted(xs[0]) + ", " + QuotedList(xs[1..])
  }

  /** str() of a Python list of strings. */
  function ListRepr(xs: seq<string>): string {
    "[" + QuotedList(xs) + "]"
  }

  /** The entry `_write_log(message, timestamp)` hands to the failover sink. */
  function LogEntry(ts: string, message: string): Entry {
    Entry(message, ts + " Note: Using fallback log location " + FallbackLogPath + "\n",
          "Failed to write log: " + message)
  }

  function Entries(ts: string, messages: seq<string>): (es: seq<Entry>)
    ensures |es| == |messages| && forall k :: 0 <= k < |es| ==> es[k] == LogEntry(ts, messages[k])
  {
    if messages == [] then [] else Entries(ts, messages[..|messages| - 1]) + [LogEntry(ts, messages[|messages| - 1])]
  }

  function RemoteLine(ts: string, p: RemoteProduct): string {
    ts + "   - " + p.name + " (ID: " + p.id + ") - New stock: " + IntToString(p.stock) + "\n"
  }

  function RemoteLines(ts: string, ps: seq<RemoteProduct>): string {
    if ps == [] then "" else RemoteLines(ts, ps[..|ps| - 1]) + RemoteLine(ts, ps[|ps| - 1])
  }

  function RemoteSuccessMessage(ts: string, successMessage: string, ps: seq<RemoteProduct>): string {
    ts + " " + successMessage + "\n"
      + (if ps != [] then ts + " Updated products:\n" + RemoteLines(ts, ps) else "")
      + "\n"
  }

  /** The one message `_update_via_graphql` logs for a response. */
  function RemoteMessage(ts: string, r: RemoteResponse): string {
    match r
    case RequestFailed(reason) => ts + " Request failed: " + reason + "\n"
    case HttpReply(status, text, body) =>
      if status != 200 then ts + " HTTP error " + IntToString(status) + ": " + text + "\n"
      else match body
        case TopLevelErrors(rendered) => ts + " GraphQL errors: " + rendered + "\n"
        case Unreadable(reason) => ts + " GraphQL approach failed: " + reason + "\n"
        case MutationPayload(ps, successMessage, errors) =>
          if HasErrors(errors) then ts + " Mutation errors: " + ListRepr(errors.value) + "\n"
          else RemoteSuccessMessage(ts, successMessage, ps)
  }

  function DatabaseLine(ts: string, rec: RestockRecord): string {
    ts + "   - " + rec.name + " (ID: " + NatToString(rec.id) + ") - Stock: "
      + IntToString(rec.oldStock) + " -> " + IntToString(rec.newStock) + "\n"
  }

  function DatabaseLines(ts: string, recs: seq<RestockRecord>): string {
    if recs == [] then "" else DatabaseLines(ts, recs[..|recs| - 1]) + DatabaseLine(ts, recs[|recs| - 1])
  }

  function DatabaseSummary(ts: string, count: nat): string {
    ts + " [Database Fallback] Successfully updated " + NatToString(count) + " low-stock products.\n"
  }

  function DatabaseSuccessMessage(ts: string, recs: seq<RestockRecord>): string {
    DatabaseSummary(ts, |recs|)
      + (if recs != [] then ts + " [Database Fallback] Updated products:\n" + DatabaseLines(ts, recs) else "")
      + "\n"
  }

  function NoLowStockMessage(ts: string): string {
    ts + " [Database Fallback] No low-stock products found.\n\n"
  }

  function DatabaseFailureMessage(ts: string, reason: string): string {
    ts + " [Database Fallback] Failed: " + reason + "\n"
  }

  // ---------------------------------------------------------------------------
  // What one run does, as functions of its inputs

  /** How many qualifying products the fallback manages to save. */
  function Budget(s: seq<Product>, fault: StoreFault): nat {
    match fault
    case NoFault => |s|
    case QueryFails(_) => 0
    case SaveFails(rank, _) => rank
  }

  /** A save raises before the last qualifying product is saved. */
  predicate SaveAborts(s: seq<Product>, fault: StoreFault) {
    fault.SaveFails? && fault.rank < CountLow(s, Threshold)
  }

  function DatabaseStore(s: seq<Product>, fault: StoreFault): seq<Product> {
    RestockedStore(s, Threshold, Amount, Budget(s, fault))
  }

  /** The one message `_update_via_database` logs. */
  function DatabaseMessage(ts: string, s: seq<Product>, fault: StoreFault): string {
    if fault.QueryFails? then DatabaseFailureMessage(ts, fault.reason)
    else if CountLow(s, Threshold) == 0 then NoLowStockMessage(ts)
    else if SaveAborts(s, fault) then DatabaseFailureMessage(ts, fault.reason)
    else DatabaseSuccessMessage(ts, Records(s, Threshold, Amount))
  }

  /** The messages of one `update_low_stock` run, in the order they are logged. */
  function JobMessages(ts: string, r: RemoteResponse, s: seq<Product>, fault: StoreFault): seq<string> {
    [RemoteMessage(ts, r)] + (if RemoteSucceeded(r) then [] else [DatabaseMessage(ts, s, fault)])
  }

  /** The store after the job's own writes in one `update_low_stock` run: none when the
      remote attempt succeeds, since the endpoint's restock happens on the server side. */
  function JobStore(r: RemoteResponse, s: seq<Product>, fault: StoreFault): seq<Product> {
    if RemoteSucceeded(r) then s else DatabaseStore(s, fault)
  }

  // ---------------------------------------------------------------------------
  // Properties of a run

  /** Nothing below the threshold: no stock changes and the fallback logs only the
      "No low-stock products found" message. */
  lemma NoLowStockRun(ts: string, r: RemoteResponse, s: seq<Product>, fault: StoreFault)
    requires !RemoteSucceeded(r) && !fault.QueryFails?
    requires forall i :: 0 <= i < |s| ==> s[i].stock >= Threshold
    ensures JobStore(r, s, fault) == s
    ensures JobMessages(ts, r, s, fault) == [RemoteMessage(ts, r), NoLowStockMessage(ts)]
  {
    NoneLowCountsZero(s, Threshold);
    NoCandidatesUnchanged(s, Threshold, Amount, Budget(s, fault));
  }

  /** Two runs in a row whose remote attempts fail and whose stores do not fail, over
      non-negative stock: the first restocks every low product, so the second finds none,
      changes nothing and logs only "No low-stock products found". */
  lemma SecondFallbackRunFindsNothing(ts: string, r1: RemoteResponse, r2: RemoteResponse, s: seq<Product>)
    requires !RemoteSucceeded(r1) && !RemoteSucceeded(r2)
    requires forall i :: 0 <= i < |s| ==> s[i].stock >= 0
    ensures var after := JobStore(r1, s, NoFault);
      && JobStore(r2, after, NoFault) == after
      && JobMessages(ts, r2, after, NoFault) == [RemoteMessage(ts, r2), NoLowStockMessage(ts)]
  {
    var after := JobStore(r1, s, NoFault);
    DefaultRunClearsLowStock(s);
    forall i | 0 <= i < |after| ensures after[i].stock >= Threshold {
      assert after[i] in after;
    }
    NoLowStockRun(ts, r2, after, NoFault);
  }

  /** A complete fallback: each qualifying product gains exactly 10 and nothing else
      changes. */
  lemma CompletedFallbackStore(r: RemoteResponse, s: seq<Product>, fault: StoreFault)
    requires !RemoteSucceeded(r) && !fault.QueryFails? && !SaveAborts(s, fault)
    ensures var after := JobStore(r, s, fault);
      && |after| == |s|
      && forall i :: 0 <= i < |s| ==>
           && after[i].id == s[i].id && after[i].name == s[i].name
           && after[i].stock == if s[i].stock < Threshold then s[i].stock + Amount else s[i].stock
  {
    assert JobStore(r, s, fault) == RestockedStore(s, Threshold, Amount, Budget(s, fault));
    FullRestock(s, Threshold, Amount, Budget(s, fault));
  }

  /** A complete fallback logs one record per qualifying product, in store order. */
  lemma CompletedFallbackLog(ts: string, r: RemoteResponse, s: seq<Product>, fault: StoreFault)
    requires !RemoteSucceeded(r) && !fault.QueryFails? && !SaveAborts(s, fault)
    requires CountLow(s, Threshold) > 0
    ensures var recs := Records(s, Threshold, Amount);
      && |recs| == |Candidates(s, Threshold)|
      && (forall k :: 0 <= k < |recs| ==> recs[k] == RecordOf(Candidates(s, Threshold)[k], Amount))
      && JobMessages(ts, r, s, fault)[1] == DatabaseSuccessMessage(ts, recs)
  {
    RecordsFollowCandidates(s, Threshold, Amount);
  }

  /** A save that raises stops the loop: the qualifying products before it keep their
      increment, it and every later product keep their old stock, and only the failure
      is logged. */
  lemma AbortedFallback(ts: string, r: RemoteResponse, s: seq<Product>, fault: StoreFault)
    requires !RemoteSucceeded(r) && SaveAborts(s, fault)
    ensures var after := JobStore(r, s, fault);
      && |after| == |s|
      && forall i :: 0 <= i < |s| ==>
           after[i] == if IsLow(s[i], Threshold) && CountLow(s[..i], Threshold) < fault.rank
                       then Restocked(s[i], Amount) else s[i]
    ensures JobMessages(ts, r, s, fault)[1] == DatabaseFailureMessage(ts, fault.reason)
  {
    RestockedStoreAt(s, Threshold, Amount, fault.rank);
  }

  /** Three products with stock 5, 12 and 3 and an unreachable endpoint: the fallback
      fires, 5 and 3 become 15 and 13, 12 is untouched, and the summary line reports
      two updated products. */
  lemma EndpointDownScenario(ts: string, reason: string)
    ensures var s := [Product(1, "A", 5), Product(2, "B", 12), Product(3, "C", 3)];
      var r := RequestFailed(reason);
      && JobStore(r, s, NoFault) == [Product(1, "A", 15), Product(2, "B", 12), Product(3, "C", 13)]
      && JobMessages(ts, r, s, NoFault)[1]
         == DatabaseSummary(ts, 2)
            + (ts + " [Database Fallback] Updated products:\n"
               + DatabaseLines(ts, [RestockRecord(1, "A", 5, 15), RestockRecord(3, "C", 3, 13)]))
            + "\n"
      && DatabaseSummary(ts, 2) == ts + " [Database Fallback] Successfully updated " + "2" + " low-stock products.\n"
  {
    var s := [Product(1, "A", 5), Product(2, "B", 12), Product(3, "C", 3)];
    var recs := [RestockRecord(1, "A", 5, 15), RestockRecord(3, "C", 3, 13)];
    assert JobStore(RequestFailed(reason), s, NoFault) == RestockedStore(s, Threshold, Amount, |s|);
    assert Records(s, Threshold, Amount) == recs && CountLow(s, Threshold) == 2 by {
      ThreeProductScenario();
    }
    assert JobMessages(ts, RequestFailed(reason), s, NoFault)[1] == DatabaseSuccessMessage(ts, recs);
    assert NatToString(2) == "2";
    ThreeProductScenario();
  }

  // ---------------------------------------------------------------------------
  // The job

  /** `_write_log`: the failover sink with this job's secondary path. */
  method WriteLog(log: FailoverLog, ts: string, message: string)
    modifies log
    ensures log.primaryWritable == old(log.primaryWritable) && log.secondaryWritable == old(log.secondaryWritable)
    ensures log.State() == Deliver(old(log.State()), log.primaryWritable, log.secondaryWritable, LogEntry(ts, message))
  {
    log.Write(LogEntry(ts, message));
  }

  /** `log_crm_heartbeat`: one line appended to the heartbeat log, with no failover. */
  method LogCrmHeartbeat(ts: string, heartbeat: FailoverLog) returns (raised: bool)
    modifies heartbeat
    ensures heartbeat.primaryWritable == old(heartbeat.primaryWritable)
    ensures heartbeat.secondaryWritable == old(heartbeat.secondaryWritable)
    ensures raised <==> !old(heartbeat.primaryWritable)
    ensures heartbeat.State() == if raised then old(heartbeat.State())
            else old(heartbeat.State()).(primary := old(heartbeat.primary) + [ts + " CRM is alive\n"])
  {
    raised := heartbeat.AppendPrimary(ts + " CRM is alive\n");
  }

  /** The per-product lines of the remote path's success message, built one by one. */
  method BuildRemoteLines(ts: string, ps: seq<RemoteProduct>) returns (lines: string)
    ensures lines == RemoteLines(ts, ps)
  {
    lines := "";
    var i := 0;
    while i < |ps|
      invariant 0 <= i <= |ps|
      invariant lines == RemoteLines(ts, ps[..i])
    {
      assert ps[..i + 1][..i] == ps[..i];
      lines := lines + RemoteLine(ts, ps[i]);
      i := i + 1;
    }
    assert ps[..|ps|] == ps;
  }

  /** The per-product lines of the database path's success message, built one by one. */
  method BuildDatabaseLines(ts: string, recs: seq<RestockRecord>) returns (lines: string)
    ensures lines == DatabaseLines(ts, recs)
  {
    lines := "";
    var i := 0;
    while i < |recs|
      invariant 0 <= i <= |recs|
      invariant lines == DatabaseLines(ts, recs[..i])
    {
      assert recs[..i + 1][..i] == recs[..i];
      lines := lines + DatabaseLine(ts, recs[i]);
      i := i + 1;
    }
    assert recs[..|recs|] == recs;
  }

  /** `_update_via_graphql`: classify the response, log one message, report success. */
  method UpdateViaGraphql(ts: string, r: RemoteResponse, log: FailoverLog) returns (success: bool)
    modifies log
    ensures success == RemoteSucceeded(r)
    ensures log.primaryWritable == old(log.primaryWritable) && log.secondaryWritable == old(log.secondaryWritable)
    ensures log.State() == Deliver(old(log.State()), log.primaryWritable, log.secondaryWritable, LogEntry(ts, RemoteMessage(ts, r)))
  {
    match r {
      case RequestFailed(reason) =>
        WriteLog(log, ts, ts + " Request failed: " + reason + "\n");
        success := false;
      case HttpReply(status, text, body) =>
        if status == 200 {
          match body {
            case TopLevelErrors(rendered) =>
              WriteLog(log, ts, ts + " GraphQL errors: " + rendered + "\n");
              success := false;
            case Unreadable(reason) =>
              WriteLog(log, ts, ts + " GraphQL approach failed: " + reason + "\n");
              success := false;
            case MutationPayload(ps, successMessage, errors) =>
              if HasErrors(errors) {
                WriteLog(log, ts, ts + " Mutation errors: " + ListRepr(errors.value) + "\n");
                success := false;
              } else {
                var lines := BuildRemoteLines(ts, ps);
                var m := ts + " " + successMessage + "\n";
                if ps != [] {
                  m := m + (ts + " Updated products:\n" + lines);
                } else {
                  m := m + "";
                }
                m := m + "\n";
                WriteLog(log, ts, m);
                success := true;
              }
          }
        } else {
          WriteLog(log, ts, ts + " HTTP error " + IntToString(status) + ": " + text + "\n");
          success := false;
        }
    }
  }

  /** `low_stock_products.exists()`. */
  method AnyLowStock(store: array<Product>) returns (found: bool)
    ensures found <==> CountLow(store[..], Threshold) > 0
  {
    found := false;
    var i := 0;
    while i < store.Length && !found
      invariant 0 <= i <= store.Length
      invariant found <==> CountLow(store[..i], Threshold) > 0
    {
      assert store[..i + 1][..i] == store[..i];
      found := store[i].stock < Threshold;
      i := i + 1;
    }
    if found {
      CountLowMonotone(store[..], Threshold, i, store.Length);
      assert store[..][..i] == store[..i];
    }
    assert store[..][..store.Length] == store[..];
  }

  /** A save raising at the `rank`-th qualifying product, found at position `i`, leaves
      the products from `i` on as they were and is an abort. */
  lemma SaveAbortsAt(s: seq<Product>, fault: StoreFault, i: nat)
    requires fault.SaveFails? && i < |s| && IsLow(s[i], Threshold)
    requires CountLow(s[..i], Threshold) == fault.rank
    ensures DatabaseStore(s, fault) == RestockedStore(s[..i], Threshold, Amount, fault.rank) + s[i..]
    ensures SaveAborts(s, fault)
  {
    BeyondBudget(s, Threshold, Amount, fault.rank, i);
    PrefixStep(s, i, Threshold, Amount, fault.rank);
    CountLowMonotone(s, Threshold, i + 1, |s|);
    assert s[..|s|] == s;
  }

  /** One pass of the restock loop that does not abort keeps its invariant. */
  lemma RestockStep(s: seq<Product>, fault: StoreFault, i: nat, cur: seq<Product>, saved: nat,
                    records: seq<RestockRecord>)
    requires !fault.QueryFails? && i < |s|
    requires cur == RestockedStore(s[..i], Threshold, Amount, Budget(s, fault)) + s[i..]
    requires saved == CountLow(s[..i], Threshold) && records == Records(s[..i], Threshold, Amount)
    requires fault.SaveFails? ==> saved <= fault.rank
    requires !(IsLow(s[i], Threshold) && fault.SaveFails? && fault.rank == saved)
    ensures cur[i] == s[i]
    ensures var saves := IsLow(s[i], Threshold);
      && (if saves then cur[i := Restocked(s[i], Amount)] else cur)
         == RestockedStore(s[..i + 1], Threshold, Amount, Budget(s, fault)) + s[i + 1..]
      && (if saves then saved + 1 else saved) == CountLow(s[..i + 1], Threshold)
      && (if saves then records + [RecordOf(s[i], Amount)] else records) == Records(s[..i + 1], Threshold, Amount)
      && (fault.SaveFails? ==> (if saves then saved + 1 else saved) <= fault.rank)
  {
    var budget := Budget(s, fault);
    PrefixStep(s, i, Threshold, Amount, budget);
    assert saved < budget || !IsLow(s[i], Threshold) by {
      assert CountLow(s[..i], Threshold) <= |s[..i]|;
    }
    StoreStep(s, i, Threshold, Amount, budget, cur);
    assert cur[i] == s[i] by {
      assert |RestockedStore(s[..i], Threshold, Amount, budget)| == i;
    }
  }

  /** The loop of `_update_via_database`: increment each qualifying product in place and
      collect its record; a save that raises ends the loop (`completed` false) with the
      earlier increments kept. */
  method RestockLoop(store: array<Product>, fault: StoreFault) returns (completed: bool, records: seq<RestockRecord>)
    requires !fault.QueryFails?
    modifies store
    ensures store[..] == DatabaseStore(old(store[..]), fault)
    ensures completed <==> !SaveAborts(old(store[..]), fault)
    ensures completed ==> records == Records(old(store[..]), Threshold, Amount)
  {
    ghost var s := store[..];
    ghost var budget := Budget(s, fault);
    records := [];
    var saved: nat := 0;
    var i := 0;
    while i < store.Length
      invariant 0 <= i <= store.Length
      invariant store[..] == RestockedStore(s[..i], Threshold, Amount, budget) + s[i..]
      invariant saved == CountLow(s[..i], Threshold)
      invariant records == Records(s[..i], Threshold, Amount)
      invariant fault.SaveFails? ==> saved <= fault.rank
    {
      var p := store[i];
      if p.stock < Threshold && fault.SaveFails? && fault.rank == saved {
        // the save raises: earlier increments stay, this and later products do not change
        SaveAbortsAt(s, fault, i);
        return false, records;
      }
      RestockStep(s, fault, i, store[..], saved, records);
      if p.stock < Threshold {
        store[i] := Restocked(p, Amount);
        records := records + [RecordOf(p, Amount)];
        saved := saved + 1;
      }
      i := i + 1;
    }
    assert s[..store.Length] == s;
    completed := true;
  }

  /** `_update_via_database`: query, restock loop, one log message; any store failure is
      caught and logged as the only message. */
  method UpdateViaDatabase(ts: string, store: array<Product>, fault: StoreFault, log: FailoverLog)
    modifies store, log
    ensures store[..] == DatabaseStore(old(store[..]), fault)
    ensures log.primaryWritable == old(log.primaryWritable) && log.secondaryWritable == old(log.secondaryWritable)
    ensures log.State() == Deliver(old(log.State()), log.primaryWritable, log.secondaryWritable,
                                   LogEntry(ts, DatabaseMessage(ts, old(store[..]), fault)))
  {
    ghost var s := store[..];
    if fault.QueryFails? {
      ZeroBudgetUnchanged(s, Threshold, Amount);
      WriteLog(log, ts, DatabaseFailureMessage(ts, fault.reason));
      return;
    }
    var any := AnyLowStock(store);
    if !any {
      NoCandidatesUnchanged(s, Threshold, Amount, Budget(s, fault));
      WriteLog(log, ts, NoLowStockMessage(ts));
      return;
    }
    var completed, records := RestockLoop(store, fault);
    if !completed {
      WriteLog(log, ts, DatabaseFailureMessage(ts, fault.reason));
      return;
    }
    var lines := BuildDatabaseLines(ts, records);
    var message := DatabaseSummary(ts, |records|);
    if records != [] {
      message := message + (ts + " [Database Fallback] Updated products:\n" + lines);
    } else {
      message := message + "";
    }
    message := message + "\n";
    WriteLog(log, ts, message);
  }

  /** `update_low_stock`: the remote attempt, then the fallback exactly when it failed. */
  method UpdateLowStock(ts: string, r: RemoteResponse, store: array<Product>, fault: StoreFault, log: FailoverLog)
    modifies store, log
    ensures store[..] == JobStore(r, old(store[..]), fault)
    ensures log.primaryWritable == old(log.primaryWritable) && log.secondaryWritable == old(log.secondaryWritable)
    ensures log.State() == DeliverAll(old(log.State()), log.primaryWritable, log.secondaryWritable,
                                      Entries(ts, JobMessages(ts, r, old(store[..]), fault)))
  {
    ghost var s0 := log.State();
    ghost var s := store[..];
    var success := UpdateViaGraphql(ts, r, log);
    ghost var first := Entries(ts, [RemoteMessage(ts, r)]);
    assert log.State() == DeliverAll(s0, log.primaryWritable, log.secondaryWritable, first) by {
      DeliverAllSnoc(s0, log.primaryWritable, log.secondaryWritable, [], LogEntry(ts, RemoteMessage(ts, r)));
    }
    if !success {
      UpdateViaDatabase(ts, store, fault, log);
      DeliverAllSnoc(s0, log.primaryWritable, log.secondaryWritable, first, LogEntry(ts, DatabaseMessage(ts, s, fault)));
      assert Entries(ts, JobMessages(ts, r, s, fault)) == first + [LogEntry(ts, DatabaseMessage(ts, s, fault))];
    } else {
      assert JobMessages(ts, r, s, fault) == [RemoteMessage(ts, r)];
    }
  }
}
