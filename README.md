# CRM background jobs and mutations, modelled in Dafny

A Django CRM has customers, products and orders. Five of its parts are modelled here:

- **`update_low_stock` (crm/cron.py).** A scheduled job that asks the CRM's GraphQL endpoint to restock every product whose stock is below 10. When that attempt fails, it restocks them itself, adding 10 to each, directly in the product store. It logs one message per attempt through a writer that falls back from `/tmp` to `/var/log` to the console. The same file holds the heartbeat job, which appends one line to its own log.
- **`generate_crm_report` (crm/tasks.py).** A weekly task that checks the endpoint, queries customers and orders, and sums the revenue while skipping amounts that do not convert. It logs a report through the same kind of failover writer. On any failure of the GraphQL path it builds the report from database counts instead. When that fails too, it returns a failure result.
- **The create mutations of the GraphQL schema (alx_backend_graphql_crm/crm/schema.py).** Customer creation checks for a unique email and the phone pattern `^(\+\d{10,15}|\d{3}-\d{3}-\d{4})$`. Bulk customer creation decides each row on its own. Product creation requires a positive price and a non-negative stock. Order creation checks the customer and every product id and totals the prices.
- **The form-validated mutations (crm/schema.py).** The email is lower-cased, stripped and checked for uniqueness. The price and the quantity must be positive. Each mutation returns either the saved object or the list of form errors.
- **The settings module (crm/settings.py).** It adds two apps to `INSTALLED_APPS` when they are missing. It merges the four CRM cron jobs into `CRONJOBS`, skipping any job whose callable is already registered.

How the model is built:

- Each part pairs pure specification functions with imperative code that follows the source.
- The product store of the cron job is an `array` that the restock loop updates in place.
- The log writer, the stores behind the mutations and the settings object are classes whose methods update their fields.
- The HTTP replies, the database answers, the timestamps and whether each log location accepts writes are inputs.
- Amounts and prices are integer cents.

Files:

| file | module | models |
|---|---|---|
| wrappers.dfy | Wrappers | `Option`, `Result` |
| text.dfy | Text | `str(int)`, the `str()` of a two-decimal float, ASCII `str.lower()`, `str.strip()` |
| log_sink.dfy | LogSink | the failover log writer shared by both jobs |
| restock_policy.dfy | RestockPolicy | which products are restocked and how the store looks afterwards |
| low_stock_job.dfy | LowStockJob | crm/cron.py |
| crm_report.dfy | CrmReport | crm/tasks.py |
| phone_pattern.dfy | PhonePattern | the phone regular expression |
| graphql_mutations.dfy | GraphqlMutations | alx_backend_graphql_crm/crm/schema.py |
| form_mutations.dfy | FormMutations | crm/schema.py |
| cron_settings.dfy | CronSettings | crm/settings.py |

## Model

| member | source | states |
|---|---|---|
| RestockPolicy.Candidates | crm/cron.py:119 | The selected products are exactly the products strictly below the threshold, with none missed, and their number is the low-stock count. |
| RestockPolicy.Records | crm/cron.py:126-137 | There is one record per qualifying product. Each record's new stock is its old stock plus the amount, and its old stock was below the threshold. |
| RestockPolicy.RestockedStoreAt | crm/cron.py:127-131 | Position by position, a product changes exactly when it qualifies and fewer than `budget` qualifying products precede it. It then gains the amount. Every other product is unchanged. |
| RestockPolicy.NotLowUntouched | crm/cron.py:119 | A product at or above the threshold is never modified. |
| RestockPolicy.FullRestock | crm/cron.py:127-131 | When the budget covers every product below the threshold, each of them ends at exactly old stock + amount with the same id and name, and all others keep their stock. |
| RestockPolicy.LowWithinBudget | crm/cron.py:126-131 | When the budget covers every qualifying product, each qualifying product finds fewer than `budget` qualifying products before it, so it is saved. |
| RestockPolicy.ZeroBudgetUnchanged | crm/cron.py:115-151 | When the store query itself fails, no product changes. |
| RestockPolicy.NoneLowCountsZero | crm/cron.py:119-121 | When no product is below the threshold, nothing is selected. |
| RestockPolicy.NoCandidatesUnchanged | crm/cron.py:121-124 | When nothing is selected, the store is unchanged. |
| RestockPolicy.BeyondBudget | crm/cron.py:127-151 | After a save raises, the products from that point on keep their old stock and the earlier increments stay. |
| RestockPolicy.RecordsFollowCandidates | crm/cron.py:126-137 | The records follow the selected products one for one, in store iteration order. |
| RestockPolicy.ReselectAfterRestock | crm/cron.py:119-131 | After a complete restock, selecting again picks exactly the products that were below threshold − amount, now restocked. |
| RestockPolicy.DefaultRunClearsLowStock | crm/cron.py:119-131 | With threshold and amount both 10 and non-negative stock, one complete run leaves no product below 10. |
| RestockPolicy.ThreeProductScenario | crm/cron.py:119-137 | Stocks 5, 12 and 3 become 15, 12 and 13, with two records. |
| LowStockJob.NoLowStockRun | crm/cron.py:121-124 | When no product is below 10, no stock changes and the fallback logs only "No low-stock products found". |
| LowStockJob.SecondFallbackRunFindsNothing | crm/cron.py:119-131 | Two runs in a row whose remote attempts fail and whose store does not fail, over non-negative stock: the second finds no product below 10, changes nothing and logs only "No low-stock products found". |
| LowStockJob.CompletedFallbackStore | crm/cron.py:126-131 | A complete fallback adds exactly 10 to each product below 10 and changes nothing else. |
| LowStockJob.CompletedFallbackLog | crm/cron.py:139-147 | A complete fallback's message lists one record per selected product, in store order. |
| LowStockJob.AbortedFallback | crm/cron.py:127-151 | A save that raises stops the loop. The earlier increments stay, later products keep their stock, and only the failure message is logged. |
| LowStockJob.SaveAbortsAt | crm/cron.py:127-151 | When the save of qualifying product number `rank` raises, the store is the restocked prefix before it followed by the untouched rest, and the run counts as aborted. |
| LowStockJob.EndpointDownScenario | crm/cron.py:101-147 | With the endpoint unreachable and stocks 5, 12 and 3, the store becomes 15, 12 and 13, and the summary reports 2 updated products. |
| LowStockJob.WriteLog | crm/cron.py:154-171 | One write goes to the first location that accepts it. The secondary location also gets the note. |
| LowStockJob.LogCrmHeartbeat | crm/cron.py:8-21 | One "CRM is alive" line is appended to the heartbeat log. When that log is not writable, the job raises and nothing changes. |
| LowStockJob.BuildRemoteLines | crm/cron.py:87-90 | The loop builds one line per updated product, in order. |
| LowStockJob.BuildDatabaseLines | crm/cron.py:141-144 | The loop builds one old → new line per record, in order. |
| LowStockJob.UpdateViaGraphql | crm/cron.py:35-110 | Returns true exactly when the response qualifies as a success, and logs exactly the one message for that response. |
| LowStockJob.AnyLowStock | crm/cron.py:121 | True exactly when some product is below 10. |
| LowStockJob.RestockLoop | crm/cron.py:126-137 | Increments in place give the policy's store for the fault's budget. The loop completes exactly when no save aborts, and then returns the full record list. |
| LowStockJob.UpdateViaDatabase | crm/cron.py:113-151 | The store ends as the policy says, and exactly the one message for the outcome (failure, nothing found, or summary) is logged. |
| LowStockJob.UpdateLowStock | crm/cron.py:24-32 | The store and the log end as one run prescribes: the remote message, then the fallback message whenever the remote attempt failed. |
| LogSink.DeliverAllRoutes | crm/tasks.py:209-224 | Over a run, all messages land in order in the first location that accepts writes. The other two locations are untouched. |
| LogSink.FailoverLog.Write | crm/cron.py:158-171 | The failover write on the object's fields. It never fails and leaves the writability flags unchanged. |
| LogSink.FailoverLog.AppendPrimary | crm/cron.py:20-21 | An append with no failover. It raises exactly when the primary location is not writable, and then nothing changes. |
| CrmReport.RevenueIsSumOfConverted | crm/tasks.py:84-90 | The revenue is the sum of exactly the amounts that convert. A missing amount counts as 0. |
| CrmReport.RevenueAppend | crm/tasks.py:84-90 | Revenue over two batches is the sum of the two revenues. |
| CrmReport.RevenueIgnoresUnconvertible | crm/tasks.py:86-90 | Dropping an order whose amount does not convert leaves the revenue unchanged, so such an order neither counts nor stops the sum. |
| CrmReport.NothingConvertedIffAllUnconvertible | crm/tasks.py:84-90 | No amount converts exactly when every order's amount is unconvertible. A missing amount converts to 0. |
| CrmReport.TotalRevenue | crm/tasks.py:84-90 | The accumulator loop computes the revenue, and it records whether `total_revenue` became a float: exactly when some amount converted. |
| CrmReport.GraphqlReport | crm/tasks.py:77-119 | On GraphQL success, `success` holds and the method is `graphql`. The counts are the list lengths, with missing lists counting as empty, and the revenue is the sum of the convertible amounts. |
| CrmReport.HelloFailureSkipsQuery | crm/tasks.py:45-51 | A failed endpoint check returns the fallback's result. The CRM query affects neither the result nor the log. |
| CrmReport.GraphqlFailureFallsBack | crm/tasks.py:121-126 | Any failure of the GraphQL path returns the fallback's result, and the fallback's messages close the log. |
| CrmReport.GraphqlRevenueShown | crm/tasks.py:84-96 | The GraphQL report line shows the revenue as the int `0` when no amount converts, including an empty or missing order list, and otherwise as the float sum of the converted amounts. |
| CrmReport.EmptyAnswerReportLine | crm/tasks.py:77-96 | With no customers and no orders, the report line is the one with counts 0 and revenue text "0", that is "… 0 customers, 0 orders, $0 revenue". |
| CrmReport.ReportLogAgreesWithResult | crm/tasks.py:16-199 | A successful run logs a report line with exactly the returned counts and revenue. A failed run ends its log with the line carrying the returned error. |
| CrmReport.DetailLinesShape | crm/tasks.py:103-108 | The average line appears only when there are orders, so it never divides by zero. The customer and order lines appear only for positive counts. |
| CrmReport.LogMessage | crm/tasks.py:202-224 | The message plus a newline is written through the failover log. |
| CrmReport.LogMessages | crm/tasks.py:96-110 | The lines of a phase are logged in order. |
| CrmReport.FallbackDatabaseReport | crm/tasks.py:129-199 | Returns the counts-based report, or the failure result, and logs that phase's lines in order. |
| CrmReport.QueryReport | crm/tasks.py:53-126 | After a responsive endpoint, returns the GraphQL report or, when the CRM query fails, the failure line followed by the fallback's result, and logs exactly that phase's lines in order. |
| CrmReport.GenerateCrmReport | crm/tasks.py:16-126 | The returned result and the full log are those the specification functions give for the endpoint, query and database outcomes. |
| PhonePattern.InternationalMatch | alx_backend_graphql_crm/crm/schema.py:46 | `\+\d{10,15}` matches exactly "+" followed by 10 to 15 digits. |
| PhonePattern.DashedMatch | alx_backend_graphql_crm/crm/schema.py:46 | `\d{3}-\d{3}-\d{4}` matches exactly the ddd-ddd-dddd strings. |
| PhonePattern.PhoneRegexMeaning | alx_backend_graphql_crm/crm/schema.py:46 | The alternation, matched against the whole string, accepts exactly the two shapes. |
| PhonePattern.PhoneAcceptedMeaning | alx_backend_graphql_crm/crm/schema.py:46 | A phone is accepted if and only if it is `+` followed by 10 to 15 digits or has the form ddd-ddd-dddd. |
| PhonePattern.TrailingNewlineAccepted | alx_backend_graphql_crm/crm/schema.py:46 | `re.match` with `$` accepts "555-123-4567\n". The whole-string check does not. |
| PhonePattern.AsWrittenDiffersOnlyByNewline | alx_backend_graphql_crm/crm/schema.py:46 | The check as written accepts the valid shapes plus the valid shapes with one final newline, and nothing else. |
| PhonePattern.ExampleInternationalAccepted | alx_backend_graphql_crm/crm/schema.py:46 | "+12345678901" is accepted. |
| PhonePattern.ExampleDashedAccepted | alx_backend_graphql_crm/crm/schema.py:46 | "555-123-4567" is accepted. |
| PhonePattern.ExamplePhonesRejected | alx_backend_graphql_crm/crm/schema.py:46 | Too few digits, no dashes, or spaces: each is refused. |
| GraphqlMutations.CreateCustomerRules | alx_backend_graphql_crm/crm/schema.py:42-47 | A taken email is reported whatever the phone. Otherwise the phone is refused exactly when it is given and invalid. Creation happens exactly when neither holds. |
| GraphqlMutations.BulkRun | alx_backend_graphql_crm/crm/schema.py:75-91 | Every input row gets exactly one verdict. |
| GraphqlMutations.BulkAccounting | alx_backend_graphql_crm/crm/schema.py:75-93 | `len(created) + len(errors) == len(input)`. |
| GraphqlMutations.BulkStoreGrows | alx_backend_graphql_crm/crm/schema.py:83-88 | After the batch, the store is the old store followed by the created customers. |
| GraphqlMutations.BulkRunPrefix | alx_backend_graphql_crm/crm/schema.py:75-91 | Later rows never change the verdicts of earlier rows, and the store only grows. |
| GraphqlMutations.BulkVerdictAt | alx_backend_graphql_crm/crm/schema.py:75-91 | Row k is decided against the store as rows 0..k−1 left it. |
| GraphqlMutations.BulkRejectsBatchDuplicate | alx_backend_graphql_crm/crm/schema.py:77-88 | A row repeating the email of an earlier created row of the same batch is refused with "Email already exists: …". |
| GraphqlMutations.Matched | alx_backend_graphql_crm/crm/schema.py:128 | Every matched product is in the store and has a requested id. |
| GraphqlMutations.MatchedMembers | alx_backend_graphql_crm/crm/schema.py:128 | A product is matched exactly when it is in the store and its id was requested, so none is missed. |
| GraphqlMutations.MatchedCount | alx_backend_graphql_crm/crm/schema.py:128-132 | With distinct store ids, `products.count()` is the number of distinct requested ids that exist. |
| GraphqlMutations.ElemsCount | alx_backend_graphql_crm/crm/schema.py:132 | A list has as many distinct ids as entries exactly when it has no duplicate. |
| GraphqlMutations.CreateOrderAccepts | alx_backend_graphql_crm/crm/schema.py:123-133 | For an existing customer, an order is accepted exactly when the ids are non-empty, pairwise distinct and all in the store. So duplicate ids are refused too. |
| GraphqlMutations.PriceSumPositive | alx_backend_graphql_crm/crm/schema.py:135 | With positive prices, a non-empty order has a positive total. |
| GraphqlMutations.CrmStore.CreateCustomer | alx_backend_graphql_crm/crm/schema.py:40-50 | Refuses with the first failing check and stores nothing, or stores the customer under the next id and returns it with the success message. Its own id counter advances exactly on creation, and the product and order counters stay. |
| GraphqlMutations.CrmStore.CreateRow | alx_backend_graphql_crm/crm/schema.py:76-91 | One row of the bulk loop moves the store exactly as one step of the bulk specification does. The product and order counters stay. |
| GraphqlMutations.CrmStore.BulkCreateCustomers | alx_backend_graphql_crm/crm/schema.py:70-93 | The store, `created` and `errors` are those of the bulk specification over the rows. The product and order counters stay. |
| GraphqlMutations.CrmStore.CreateProduct | alx_backend_graphql_crm/crm/schema.py:104-111 | Refuses with the first failing check, or stores the product with stock defaulting to 0. Its own id counter advances exactly on creation, and the customer and order counters stay. |
| GraphqlMutations.CrmStore.CreateOrder | alx_backend_graphql_crm/crm/schema.py:122-143 | Refuses with the first failing check. Otherwise it stores an order for the matched products with their price sum, which is positive, and the given date or `now`. Its own id counter advances exactly on creation, and the customer and product counters stay. |
| GraphqlMutations.CrmStore.ValidIdsDistinct | alx_backend_graphql_crm/crm/schema.py:128-132 | The store's product ids are distinct, so the count comparison detects repeated ids. |
| FormMutations.NormalizeEmail | crm/schema.py:37 | The normalised email has no upper-case letter and no white space at either end. |
| FormMutations.NormalEmailFixed | crm/schema.py:37 | Normalising leaves an email unchanged exactly when it is already in normal form. |
| FormMutations.NormalizeEmailIdempotent | crm/schema.py:37 | Normalising twice is normalising once. |
| FormMutations.CleanEmail | crm/schema.py:36-40 | Accepted exactly when no customer has the normalised email, and the normalised email is returned. Otherwise the error is "Email already exists". |
| FormMutations.SameNormalFormRefused | crm/schema.py:36-40 | An email differing from a stored one only by letter case or surrounding white space is refused. |
| FormMutations.ResubmissionRefused | crm/schema.py:36-40 | After a customer is saved, any spelling of the same email is refused. |
| FormMutations.CleanEmailKeepsDistinct | crm/schema.py:36-40 | Saving what `clean_email` accepted keeps the stored emails normalised and pairwise distinct. |
| FormMutations.DistinctEmailsPairwise | crm/schema.py:36-40 | Customers saved one by one through `clean_email` have normalised emails, and no two of them share one. |
| FormMutations.CleanPrice | crm/schema.py:48-52 | Accepted exactly when price > 0, and the value is kept. Otherwise the error is "Price must be positive". |
| FormMutations.CleanQuantity | crm/schema.py:60-64 | Accepted exactly when quantity > 0, and the value is kept. Otherwise the error is "Quantity must be greater than 0". |
| FormMutations.OrderFormErrors | crm/schema.py:55-64 | No error exactly when the customer and the product exist and quantity > 0. Each failing field gives one error. |
| FormMutations.PayloadOf | crm/schema.py:79-84 | Exactly one of object and errors is present. The object is present exactly when there are no errors, and the errors are non-empty. |
| FormMutations.FormStore.CreateCustomer | crm/schema.py:79-84 | Saves the customer with the normalised email exactly when `clean_email` accepts, keeping emails distinct. Otherwise it returns the error and saves nothing. |
| FormMutations.FormStore.CreateProduct | crm/schema.py:95-100 | Saves the product exactly when `clean_price` accepts. Otherwise it returns the error. |
| FormMutations.FormStore.CreateOrder | crm/schema.py:112-123 | Saves the order exactly when the form has no errors. Otherwise it returns the errors in field order. |
| CronSettings.AddIfAbsent | crm/settings.py:12-17 | The app is present afterwards. The old list is a prefix of the new one, at most one entry is added, and nothing is added when the app was already there. |
| CronSettings.EnsureAppsShape | crm/settings.py:11-17 | Both apps are installed afterwards. The old apps come first and nothing else is added. |
| CronSettings.EnsureAppsIdempotent | crm/settings.py:12-17 | Running both blocks a second time leaves the list unchanged. |
| CronSettings.Names | crm/settings.py:37 | One name per job, the callable, in job order. |
| CronSettings.MissingMembers | crm/settings.py:37-40 | A job is appended exactly when it is a CRM job whose callable was not among the names present before the merge. |
| CronSettings.MissingAppend | crm/settings.py:38-40 | The appended jobs keep the order of the CRM job list. |
| CronSettings.MergeJobs | crm/settings.py:35-40 | The existing jobs are kept unchanged and in order as a prefix of the result. |
| CronSettings.MergeAppendsIffAbsent | crm/settings.py:37-40 | After the existing prefix, a CRM job appears exactly when its callable was absent. |
| CronSettings.MergeRegistersAll | crm/settings.py:37-40 | After the merge, every CRM callable is registered. |
| CronSettings.MergeIdempotent | crm/settings.py:37-40 | Merging a second time adds nothing. |
| CronSettings.MergeIntoItself | crm/settings.py:35-42 | Loading the settings twice, with `CRONJOBS` first absent and then set to the CRM list, leaves exactly the CRM list. |
| CronSettings.Settings.EnsureInstalledApps | crm/settings.py:11-17 | The two append-if-absent blocks update the settings object, and `CRONJOBS` is left alone. |
| CronSettings.Settings.RegisterCrmCronJobs | crm/settings.py:34-42 | With no `CRONJOBS`, it becomes exactly the CRM list. Otherwise the loop leaves it equal to the merge specification, with names taken before the loop. |

## Left out

- HTTP, the ORM, the GraphQL client and the file system. They are inputs or state here: a response datatype, database outcome datatypes, arrays, and sequences of appended chunks with fixed writability flags. crm/models.py is not part of this model, so model field constraints are not modelled (uniqueness, lengths, EmailField syntax), nor are Django's own field validators (required fields, number parsing).
- `datetime.now()`: timestamps are opaque strings passed in. `timezone.now()` is the `now` parameter of `CreateOrder`.
- Non-posix paths (`C:\temp\…`) and `os.makedirs`: only the posix branch is modelled.
- Floating point. Amounts and prices are integer cents.
- `Text.CentsToString`: renders what Python's `str(float)` prints for a value with at most two decimals. It does not cover exponent notation for very large values, or the rounding that `round(x, 2)` and float addition can introduce.
- `CrmReport.AverageOrderValue`: uses floor division on cents, where the source uses float division followed by `round(…, 2)`.
- `CrmReport.GenerateCrmReport`: a `customers` or `orders` key present with value null is treated like an absent key. In the source, `len(None)` raises, which ends in the fallback.
- `LowStockJob.UpdateViaGraphql`: a top-level `errors` value is an opaque rendered string. Python's `repr` escaping of quotes inside mutation error strings is not modelled.
- `GraphqlMutations.CrmStore.CreateOrder`: ids are natural numbers. A non-numeric `customer_id` or product id raises a different error in the ORM, which is not modelled. `order.products.set` is represented by the order's list of product ids.
- `GraphqlMutations.CrmStore.CreateProduct`: an explicit null stock, which makes `stock < 0` raise a TypeError, is not modelled.
- `GraphqlMutations.CrmStore.BulkCreateCustomers`: `transaction.atomic` and database errors raised inside the loop are not modelled.
- `FormMutations.FormStore`: each error is the message text of the clean method. Django renders `str(ErrorList)` as an HTML list. The existence check of the `customer` and `product` choice fields uses Django's standard "Select a valid choice" message. Other field validators are not modelled, and neither is the conversion of a missing phone to "".
- `GraphqlMutations.CreateCustomerRules`: states the corrected whole-string phone check. The source's `re.match` with `$` also accepts a valid number followed by one newline (see "## Findings").
- `GraphqlMutations.CrmStore.CreateCustomer`: refuses a valid number followed by one newline, which the source accepts and stores, because it uses the corrected phone check.
- `GraphqlMutations.CrmStore.BulkCreateCustomers` and `GraphqlMutations.CrmStore.CreateRow`: the bulk rows, checked in `CreateRow`, use the same corrected phone check, so a row whose phone is a valid number followed by one newline is refused here and created by the source.
- `Text.Lower` changes only the ASCII letters, and `\d` in the phone pattern is the ASCII digits. Python's `str.lower()` and `\d` also cover other Unicode letters and digits.
- `CronSettings.Settings.RegisterCrmCronJobs`: `settings.CRONJOBS = CRM_CRONJOBS` makes both names refer to one list. That aliasing is not modelled. `INSTALLED_APPS` and `CRONJOBS` are modelled as lists. In Django either may be a tuple: then `INSTALLED_APPS += [...]` (crm/settings.py:13, 17) raises TypeError when an app is missing, and `settings.CRONJOBS.append(job)` (line 40) raises AttributeError when a job is missing. Neither error is modelled. An existing django-crontab entry is modelled as a `CronJob(schedule, callable)` pair, so entries that also carry args, kwargs or a command suffix are not represented. The source keeps such entries unchanged and reads only `job[1]` (line 37).
- The remaining constants of crm/settings.py (Celery broker, result backend and beat schedule, the crontab prefix and suffix, the log path table) are configuration with no behaviour to model.
- `test_celery_task` in crm/tasks.py, crm/celery.py, crm/__init__.py, the reminder job and the setup script are not part of this model.
- Concurrency between jobs and mutations: every run is sequential.

## Findings

| source | as written | input that shows it | evidently intended | confidence | as-written member | corrected member |
|---|---|---|---|---|---|---|
| alx_backend_graphql_crm/crm/schema.py:46 | `re.match(r"^(…)$", phone)`: in Python, `$` also matches just before a final newline | phone "555-123-4567\n" is accepted and stored with the newline | the whole string must have one of the two shapes (`re.fullmatch` or `\Z`) | not executed | PhonePattern.PhoneAcceptedAsWritten, PhonePattern.TrailingNewlineAccepted | PhonePattern.PhoneAccepted, PhonePattern.PhoneAcceptedMeaning |

The mutations of `GraphqlMutations` use the corrected check (`PhoneAccepted`).
