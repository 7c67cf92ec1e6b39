# ESPA order processing, modelled in Dafny

ESPA takes orders for processed satellite imagery. A customer names Landsat or MODIS scenes and the products wanted, such as surface reflectance or statistics plots. The back end then moves every scene of the order through archive ordering, cluster processing and delivery. This project models the core of the ESPA API and proves properties of that model:

- **Production state machine** (`production*.dfy`):
  - the scene transition primitives: queue, mark complete, unavailable (single and bulk), status update, retry and error routing;
  - every handler that `handle_orders` runs: initial e-mails, on-order polling of LTA, stuck and orphaned jobs, retry maturation, failed LTA status repair, cancellation, landsat and modis availability checks, plot promotion, download sizes, order completion, and the purge under its lease;
  - the loading of EarthExplorer (EE) orders, and the orphan reset and resubmission.
  The database is the class `Store.Db`:
  - scenes, orders and users are maps from primary key to record;
  - `onDisk` holds the online cache's directories;
  - `cache` is memcache as a key → (value, expiry) map;
  - bulk updates are map updates over id sets.
- **Error classifier** (`errors.dfy`, `errors_examples.dfy`): the ordered table of case-insensitive substring rules that turns a processing log into a resolution, and worked examples on real log messages.
- **Ordering provider** (`ordering.dfy`, `restrictions.dfy`): `available_products` with its role, date and ordering restrictions, `sensor_products`, `cancel_order`, `fetch_user_orders` and `item_status`.
- **Orders** (`order.dfy`, `options.dfy`): the conversion between the flat legacy option names and the nested option format, the EE default options, `products_by_sensor`, the EE order id, and the scene rows `Order.create` inserts.
- **Product ids** (`sensor.dfy`): `sensor.instance` (extension stripping, pattern match, shortname), the Landsat and MODIS field extraction, and `available_products` grouping. The regular expressions are written as explicit character-class predicates.
- **Validation** (`validation.dfy`): the custom validictory checks with the item-count counters, and `massage_formatting`.
- **Metrics** (`metrics.dfy`): `build_sql`, `list_metrics` and `metric_info`.

`wrappers.dfy`, `text.dfy` and `json.dfy` hold the shared pieces:

- the `Result`/`Option` types with Python's exception kinds;
- Python's string operations (lower/upper, strip, split, find, replace, basename, `int()`/`str()`);
- JSON-like values for the option dictionaries.

In the model, the external systems are parameters:

- the `Env` and `Ext` records hold LTA pushes and unit lists, the inventory, the online cache directory deletes, e-mail sends, the hadoop job names, file sizes, the retry configuration and the clock;
- `Aux` holds the restrictions file and date helpers;
- `Run` holds handle_orders' own inputs.

Time is an integer count of seconds. `time.sleep(630)` is a later clock value, at least 630 seconds on.

An exception from any handler propagates out of handle_orders: no pass is guarded against another's failure. `ProductionRun.HandleOrders` returns the first error and runs nothing after it.

## Model

| member | source | states |
|---|---|---|
| ErrorClassifier.RetrySettingKeysComplete | api/system/errors.py:83-100 | every timeout key a retrying condition names is one of the retry settings the configuration must hold |
| ErrorClassifier.NameError | api/system/errors.py:22-24 | the product name raises exactly when one is given and the sensor lookup rejects it |
| ErrorClassifier.KeyMatchesSome | api/system/errors.py:55-81 | the key search matches exactly when some key, lower-cased, occurs in the lower-cased message |
| ErrorClassifier.FindError | api/system/errors.py:55-81 | the loop finds a resolution exactly when some lower-cased key occurs in the lower-cased message, and the resolution it finds carries the condition's status, reason and extras |
| ErrorClassifier.AddRetry | api/system/errors.py:83-100 | the extras exist exactly when the timeout key is configured; retry_after lies the configured timeout after now and retry_limit is the configured retry count |
| ErrorClassifier.Evaluate | api/system/errors.py:102-296 | one condition's method answers what its keys, status, reason and extras say, and raises the name's error when the condition parses the product name |
| ErrorClassifier.Resolve | api/system/errors.py:298-359 | resolve walks the conditions in their registered order and answers what the first deciding one answers |
| ErrorClassifier.FirstDecides | api/system/errors.py:342-347 | when every earlier condition answers None and condition i does not, resolve answers what condition i answers |
| ErrorClassifier.NoneIffUndecided | api/system/errors.py:342-349 | resolve answers None exactly when every condition answers None |
| ErrorClassifier.AnswerIsFirst | api/system/errors.py:342-347 | a resolution or an error comes from some condition, and a resolution from one whose keys match the message, with that condition's status and reason |
| ErrorClassifier.RetryExtras | api/system/errors.py:102-296 | a resolution of a registered condition carries extras exactly when its status is retry, and then the configured timeout and retry count of its key |
| ErrorClassifier.RetryKeyed | api/system/errors.py:29-49 | a registered condition retries exactly when it names a timeout key |
| ErrorClassifier.ExtrasOf | api/system/errors.py:102-296 | for any condition that names a timeout key exactly when it retries, its resolution carries extras exactly when it retries, with the configured values |
| ErrorClassifier.NeverRaises | api/system/errors.py:298-359 | with a product name that parses and every named timeout key configured, resolve never raises |
| ErrorClassifier.ConfiguredCovers | api/system/errors.py:83-100 | a configuration holding every retry setting covers every key the registered conditions name |
| ErrorClassifier.Skip | api/system/errors.py:342-347 | a condition whose keys miss the message passes the decision to the next one |
| ErrorClassifier.Answer | api/system/errors.py:342-347 | a condition whose keys match the message decides with its status, reason and retry extras |
| ErrorClassifier.Raise | api/system/errors.py:144-166 | once the walk reaches a condition that parses the product name, a name that does not parse raises, whatever the message |
| ErrorExamples.ConnectionTimedOut | api/system/errors.py:111-124 | 'Connection timed out' is retried as an HTTP connection error with the http_errors settings, although the network-error keys match it too |
| ErrorExamples.CachePurgeResubmits | api/system/errors.py:226-230 | the online-cache purge message sends the scene back to submitted with no extras |
| ErrorExamples.CachePurgeUnsupportedName | api/system/errors.py:144-166 | with a product name that does not parse, the same purge message raises the name's error |
| ErrorExamples.NightSceneUnavailable | api/system/errors.py:177-185 | a solar zenith angle out of range makes the scene unavailable as a night scene |
| Metrics.Passed | api/providers/metrics/metrics_provider.py:57 | the optional clauses kept are exactly those whose key the caller passed |
| Metrics.Missing | api/providers/metrics/metrics_provider.py:52 | the missing names are exactly the required keys the caller did not pass |
| Metrics.ReprItems | api/providers/metrics/metrics_provider.py:54 | each missing name is printed in quotes, as a Python list shows a string |
| Metrics.MissingSet | api/providers/metrics/metrics_provider.py:52 | build_sql's delta holds exactly the required names the caller did not pass |
| Metrics.PresentSet | api/providers/metrics/metrics_provider.py:57 | the set of optional names used holds exactly the optional names the caller passed |
| Metrics.Conjuncts | api/providers/metrics/metrics_provider.py:57-60 | the WHERE clause joins the query's own where, then every required clause in the mapping's order, then one optional clause per name of the passed optional names' list(), in that list's order |
| Metrics.OptionalsPassed | api/providers/metrics/metrics_provider.py:57-60 | whatever order list() gives the set, the clause of every passed optional name is among the conjuncts |
| Metrics.BuildSql | api/providers/metrics/metrics_provider.py:51-63 | build_sql raises MetricsException exactly when a required key was not passed, naming the missing names in the order list() gives their set; otherwise the query has its placeholder replaced by the conjuncts joined with AND |
| Metrics.BuildSqlKeepsTemplate | api/providers/metrics/metrics_provider.py:62 | a template with one placeholder keeps its text before and after it |
| Metrics.ListMetrics | api/providers/metrics/metrics_provider.py:41-43 | list_metrics maps every query name, and only those, to its description |
| Metrics.MetricInfo | api/providers/metrics/metrics_provider.py:45-48 | metric_info keeps exactly the wanted fields of the query, a string as itself and a dict as its keys |
| Metrics.InfoHidesQuery | api/providers/metrics/metrics_provider.py:33-34 | with the provider's info keys the SQL text and where clause are never shown |
| Metrics.InfoShowsRequired | api/providers/metrics/metrics_provider.py:33-34 | with the provider's info keys the required field is shown as the names of the required arguments |
| Restrictions.RulesOf | api/providers/ordering/ordering_provider.py:70-72 | a sensor the restriction file does not name has no role and no date rules |
| Restrictions.ByDateFor | api/providers/ordering/ordering_provider.py:72-75 | the date rules of a sensor are its own merged with the file's 'all' rules, and the 'all' rules win |
| Restrictions.RoleFor | api/providers/ordering/ordering_provider.py:71 | the role-restricted products are those of the sensor together with those of 'all' |
| Restrictions.SrDateRestricted | api/domain/sensor.py:349-353 | the answer is True exactly for a Landsat scene whose sensor has an sr date rule that its date fails; a MODIS scene or an unlisted sensor answers False; a listed sensor without an sr rule raises KeyError |
| Restrictions.SrDateRestrictedOnlyLandsat | api/domain/sensor.py:349-353 | as written, the method exists only on Landsat, so a MODIS scene raises AttributeError; on Landsat the written and the intended versions agree |
| Restrictions.ByDateLookup | api/providers/ordering/ordering_provider.py:98-99 | a product's date rule is read from the merged rules: the 'all' value when it has one, else the sensor's own |
| Restrictions.ByDateLookupFails | api/providers/ordering/ordering_provider.py:98-99 | reading the sensor's own rules, as written, agrees with the merged lookup when the sensor has date rules, and raises KeyError when only 'all' has one |
| Restrictions.ByDateLookupFailsExample | api/providers/ordering/ordering_provider.py:98-99 | a tm5 sensor with no date rules and an 'all' rule for sr makes the written lookup raise |
| Store.FindOrderIn | api/providers/production/production_provider.py:64 | Order.find answers an order with the given id, and fails with the missing-order error exactly when no order has it |
| Store.CancelOpts | api/providers/production/production_provider.py:115 | the cancel options make the scene cancelled and keep its name and order |
| Store.Db.ScenesOf | api/providers/production/production_provider.py:997 | the scenes of an order are exactly the rows whose order id is its key |
| Store.Db.FindOrder | api/providers/production/production_provider.py:240 | Order.find answers an order with the given id, and fails exactly when no order has it |
| Store.Db.FindScene | api/providers/production/production_provider.py:109 | Scene.where on order and name answers a row with both, and fails exactly when there is none |
| Store.Db.Locate | api/providers/production/production_provider.py:94-110 | the order and the scene found carry the given ids; a missing order fails with the missing-order error |
| OrderDomain.ProjectionNoFlags | api/domain/order.py:318-340 | no default projection option is an include_ flag |
| OrderDomain.LaterGroupsNoFlags | api/domain/order.py:343-398 | no default subset, resize, resample or format option is an include_ flag |
| OrderDomain.DefaultFlagsOff | api/domain/order.py:401-417 | in the merged default options every include_ flag is False |
| OrderDomain.EeOrderId | api/domain/order.py:276-284 | the EE order id is 'espa-', the e-mail, '-', then the EE order number |
| OrderDomain.EeOrderIdInjective | api/domain/order.py:276-284 | for one e-mail, different EE order numbers give different ids |
| OrderDomain.EeIds | api/domain/order.py:433-434 | the scene ids of the EE items, read in their order |
| OrderDomain.EeStep | api/domain/order.py:432-449 | one more item leaves the options alone when its id is unsupported, and otherwise files it under its shortname: appended to that entry's inputs, or opening a new entry with the sensor's default products |
| OrderDomain.EeOptions | api/domain/order.py:420-451 | the loop succeeds exactly when every item carries a readable sceneid; then every supported id sits in the inputs of its shortname's entry, in order, each entry holding 'sr' for Landsat or 'l1' for MODIS, unsupported ids skipped, and 'format' is 'gtiff' |
| OrderDomain.DefaultEeOptions | api/domain/order.py:420-451 | the same, with the sensor module's own classifier |
| OrderDomain.Members | api/domain/order.py:592-593 | only a list, a string or a dict can be iterated for inputs |
| OrderDomain.CollectedAll | api/domain/order.py:591-595 | after every product group is visited, the keys are exactly the inputs of some group, each mapped to the products of a group that lists it, and an input only one group lists gets that group's products |
| OrderDomain.ProductsBySensor | api/domain/order.py:580-597 | products_by_sensor succeeds exactly when every product group can be read; then it maps exactly the groups' inputs, each to its group's products; a group it cannot read raises KeyError or TypeError |
| OrderDomain.CollectEntry | api/domain/order.py:594-595 | one group adds its inputs, each mapped to the group's products, and fails exactly when the group cannot be read |
| OrderDomain.FirstInput | api/domain/order.py:159 | inputs[0] exists exactly for a non-empty list or string |
| OrderDomain.SensorType | api/domain/order.py:161-164 | the sensor type is read off the first input, 'landsat' or 'modis', and fails exactly when that input is not a supported string |
| OrderDomain.AllRowsShape | api/domain/order.py:157-173 | one row per input of the sensor entries, each submitted, in the order's id, of type landsat or modis, and none a plot |
| OrderDomain.SceneRows | api/domain/order.py:150-184 | an EE order injects no rows; otherwise the rows are built exactly when every sensor entry can be read, visiting each sensor key once, sensor rows first and then the plot row; a failure is the error of some entry |
| OrderDomain.CreateScenes | api/domain/order.py:102-201 | with the sensor module's keys: an EE order injects nothing; otherwise success is exactly every entry readable, and the rows are one per input plus one plot row when plot_statistics is truthy, all submitted in the order |
| Production.CacheSet | api/providers/caching/caching_provider.py:19-22 | the key is set and every other key kept; the entry is live exactly until now plus the timeout, and a falsy timeout means the provider's 600 seconds |
| Production.RetryOutcome | api/providers/production/production_provider.py:314-336 | set_product_retry succeeds exactly when a limit is known and the count plus one stays within it; no limit and an exceeded limit give their errors; on success the row is in retry, counts one more try, stores the limit used, stays within it and stands for the same product |
| Production.RetriesRunOut | api/providers/production/production_provider.py:314-336 | k retries in a row from count c all succeed exactly when c + k is within the limit, and then the count is c + k |
| Production.ErrorRouting | api/providers/production/production_provider.py:351-395 | the row set_product_error leaves is submitted exactly for a submitted resolution, unavailable exactly for an unavailable one, in retry exactly when a retry is accepted, and in error otherwise; the product is the same |
| Production.ErrorRoutingNoRetry | api/providers/production/production_provider.py:371-380 | a submitted or unavailable resolution ends the row in that status |
| Production.SetUnavailableAt | api/providers/production/production_provider.py:172-191 | the located row is updated to unavailable with location, date, log and note, and flagged 'R' when the LTA push of an 'ee' order fails; that failure stamps the cache |
| Production.SetProductUnavailable | api/providers/production/production_provider.py:157-201 | an unknown order or scene raises and writes nothing; otherwise the call answers True and the row and cache end as SetUnavailableAt states |
| Production.MarkProductComplete | api/providers/production/production_provider.py:77-155 | an unknown order or scene raises and writes nothing; on a cancelled order the row gets the cancel options and the call answers False; otherwise it answers True and the row is completed, flagged 'C' when the 'ee' push fails, with the cache stamped then |
| Production.CompleteAt | api/providers/production/production_provider.py:123-148 | the located row gets status complete, the delivery fields, the download urls and the file size, and the 'C' flag and cache stamp when the 'ee' push fails |
| Production.CompletedFacts | api/providers/production/production_provider.py:123-137 | a completed row is finished, dated now, sized by the file on disk or 0 when the file is missing, and carries 'C' when the push failed |
| Production.SetProductsUnavailable | api/providers/production/production_provider.py:204-229 | exactly the listed rows become unavailable with the date and reason, each flagged 'R' when its order is 'ee' and the push fails; the other rows and the cache are unchanged |
| Production.FlagRejects | api/providers/production/production_provider.py:216-224 | the keys are kept; each listed row is flagged 'R' exactly when its rejection does not reach LTA, and the other rows are unchanged |
| Production.BulkUnavailable | api/providers/production/production_provider.py:213-215 | the bulk update keeps the table's keys |
| Production.UpdateStatus | api/providers/production/production_provider.py:231-252 | an unknown order or scene raises and writes nothing; the answer is True exactly when the order is not cancelled, and then the location and status are written when given; a cancelled order gives the row the cancel options |
| Production.SetRetryAt | api/providers/production/production_provider.py:314-336 | the call succeeds exactly when the retry is allowed and then writes the retried row; a refusal raises its error and writes nothing |
| Production.SetProductRetry | api/providers/production/production_provider.py:301-339 | an unknown order raises; success writes the retried row of the located scene; any error writes nothing |
| Production.Classify | api/providers/production/production_provider.py:350-353 | the plot scene is not classified; every other name goes through errors.resolve |
| Production.ApplyResolution | api/providers/production/production_provider.py:361-395 | the located row ends as the routing for the resolution says, and the cache changes only through the unavailable route's push |
| Production.SetProductError | api/providers/production/production_provider.py:341-397 | an unknown order raises; an error of the classifier escapes and writes nothing; otherwise the call answers True, the row ends as the resolution's routing says, and the cache as its push says |
| Production.UpdateProduct | api/providers/production/production_provider.py:254-299 | an unknown action answers the 'not an accepted action' message and writes nothing, and only an unknown action gets it; an accepted action on an unknown order raises; orders, users and the disk are untouched |
| Production.GroupPairsMembers | api/providers/production/production_provider.py:55-60 | an order name is a key of the grouped dict exactly when some pair names it, and a product is in its list exactly when the pair is given |
| Production.GroupOrders | api/providers/production/production_provider.py:55-60 | the first loop builds the grouped dict, each order's product names in the order given |
| Production.QueuedScenes | api/providers/production/production_provider.py:62-73 | queueing keeps the table's keys |
| Production.QueueIn | api/providers/production/production_provider.py:65-73 | queueing one order's names keeps the table's keys |
| Production.QueueStep | api/providers/production/production_provider.py:62-73 | after one more order name is found, queueing its names makes the rows queued exactly those of the names already found |
| Production.QueueGroups | api/providers/production/production_provider.py:62-73 | the loop succeeds exactly when every order name exists and raises the missing-order error otherwise; each row is queued exactly when its order was found and its name listed; nothing else changes |
| Production.QueueAll | api/providers/production/production_provider.py:62-73 | the same loop on the scene table: it succeeds exactly when every order name exists, and queues exactly the rows of found orders whose names are listed |
| Production.QueueProducts | api/providers/production/production_provider.py:38-75 | the call succeeds exactly when every order name exists; every row stays or becomes queued with the location and job; with unique order names a success queues exactly the named scenes |
| Production.QueueIdempotent | api/providers/production/production_provider.py:62-73 | queueing the same pairs twice leaves what queueing them once left |
| OptionsConversion.Swap | api/domain/order.py:812-814 | the reversed table keeps each row's conversion and exchanges its two names |
| OptionsConversion.IndexIn | api/domain/order.py:927-932 | tuple.index on the from column: none exactly when no row has the key, otherwise the first row that has it |
| OptionsConversion.Translate | api/domain/order.py:914-946 | the loop of _translate builds what the entry fold defines, or raises what its first failing key raises |
| OptionsConversion.ErrorPersists | api/domain/order.py:927-932 | once a prefix of the keys raises, the whole translation raises the same error |
| OptionsConversion.TranslatedFolded | api/domain/order.py:922-946 | _translate is the fold of what each key contributes, taken in order |
| OptionsConversion.FoldedErrors | api/domain/order.py:927-932 | the fold fails exactly when some contribution does, with the first one's error |
| OptionsConversion.FoldedValues | api/domain/order.py:934-944 | after a successful fold a name is set exactly when some contribution sets it, to the last such value |
| OptionsConversion.TranslatedErrors | api/domain/order.py:927-932 | _translate raises exactly when some key is not in the from column, and then with the first such key's message |
| OptionsConversion.TranslatedValues | api/domain/order.py:934-944 | after a successful _translate a name is set exactly when some key sets it, and holds what the last such key put there |
| OptionsConversion.ProdPairsDistinct | api/domain/order.py:656-676 | neither column of the product table repeats a name |
| OptionsConversion.ProdFlagsPrefixed | api/domain/order.py:656-676 | every legacy product flag is named include_* |
| OptionsConversion.ProdMapFlagTable | api/domain/order.py:656-676 | the product table, read either way, is a table of distinct names whose every row puts True |
| OptionsConversion.Flags | api/domain/order.py:941-942 | the flags set through a flag table: exactly the to names of the rows whose from name is given, each True |
| OptionsConversion.FlagsTranslated | api/domain/order.py:914-946 | translating a list of known names through a flag table sets exactly their flags |
| OptionsConversion.TranslatedTrue | api/domain/order.py:941-942 | through a flag table every name set holds True |
| OptionsConversion.FlagsTranslatedKeys | api/domain/order.py:914-946 | through a flag table the names set are exactly the flags of the names given |
| OptionsConversion.GivesKnown | api/domain/order.py:927-942 | a known name sets the to name of its row and nothing else |
| OptionsConversion.LastGiver | api/domain/order.py:934-944 | a name some key sets is in the result and, in a flag table, is True |
| OptionsConversion.FlagsRoundTrip | api/domain/order.py:812-814 | through a flag table and back through the reversed one, a set of known names comes back unchanged |
| OptionsConversion.Extension | api/domain/order.py:819 | list.extend succeeds exactly on an iterable value and adds exactly what iterating it visits, a list's items in order |
| OptionsConversion.CharsOf | api/domain/order.py:819 | extending by a string adds exactly its one-character strings |
| OptionsConversion.KeysOf | api/domain/order.py:819 | extending by a dict adds exactly its keys |
| OptionsConversion.TranslateOneKey | api/domain/order.py:826-829 | translating one key sets nothing but the name its row points to |
| OptionsConversion.ProdTranslatedKeys | api/domain/order.py:840-842 | products translated through the reversed product table set only legacy flag names |
| OptionsConversion.ProductFlags | api/domain/order.py:816-842 | the product list of a whole input, translated through the reversed product table, sets exactly the flags of the products its sensor entries name |
| OptionsConversion.FlattenKey | api/domain/order.py:817-838 | one key of the loop: a sensor entry adds its products and nothing flat, a table entry adds its translation and, for a nested table, its flattened value; plot_statistics and note add nothing; any other key raises 'Unrecognized key' |
| OptionsConversion.FlattenStep | api/domain/order.py:817-838 | one more key flattened as FlattenKey promises keeps the loop's invariant |
| OptionsConversion.FlattenNext | api/domain/order.py:817-838 | one pass of the loop visits one more key and keeps the invariant, or raises |
| OptionsConversion.FlattenFields | api/domain/order.py:816-838 | after the loop every key was accepted, every sensor entry's products were a list, and the product list holds exactly their products |
| OptionsConversion.Flatten | api/domain/order.py:797-844 | a value that is no dict flattens to nothing; on success every key is one _flatten accepts, every name set is a legacy one, and every product of every sensor entry is set True as its legacy flag; an input of products alone flattens to exactly those flags |
| OptionsConversion.FlattenCombined | api/domain/order.py:840-844 | the options gathered and the product flags together stay legacy names and keep every product flag True |
| OptionsConversion.Slot | api/domain/order.py:862-871 | the row a legacy key selects is a named row of the table |
| OptionsConversion.NestKey | api/domain/order.py:860-880 | one key of _build_nested raises exactly when its row is missing or a sub-table raises; it sets a name exactly when the key selects a row, and that entry is what _build_nested puts there |
| OptionsConversion.BuildNested | api/domain/order.py:847-882 | _build_nested raises exactly when some key is unsafe; otherwise every selected row gets its nested name, holding the value or the nested dict of its sub-table |
| OptionsConversion.ScenesOf | api/domain/order.py:895-906 | the scenes filed under a name come from the scenes given, are not 'plot', and fall under that name |
| OptionsConversion.GroupName | api/domain/order.py:900-903 | a scene is never filed under plot_statistics or resampling_method |
| OptionsConversion.SensorsStep | api/domain/order.py:895-909 | one more scene: 'plot' sets plot_statistics True; any other joins, in order, the entry of its name |
| OptionsConversion.BuildNestedSensors | api/domain/order.py:885-911 | plot_statistics is True exactly when a 'plot' scene is given, and every name some scene falls under holds those scenes in order with the shared products |
| OptionsConversion.SwapSwap | api/domain/order.py:812-814 | reversing a table twice gives it back |
| OptionsConversion.LookupRoundTrip | api/domain/order.py:812-814 | in a table of distinct names the to name a key selects leads back to the key |
| OptionsConversion.ResampleRoundTrip | api/domain/order.py:678-680 | a resampling name converted either way and back is the name it started from |
| OptionsConversion.LoneNestingSafe | api/domain/order.py:873-875 | a lone key whose row nests a table that does not name it raises nothing |
| OptionsConversion.LoneNestingEmpty | api/domain/order.py:873-875 | and it leaves an empty dict under the row's nested name |
| OptionsConversion.ResampleRow | api/domain/order.py:678-686 | the keyword table's resample row nests the resample table, which has no row for resample_method |
| OptionsConversion.TrueFlagList | api/domain/order.py:778-782 | a list of exactly the flags set True is a list of known names naming those flags |
| OptionsConversion.SplitFlags | api/domain/order.py:776-782 | the loop keeps exactly the product flags that are True and leaves exactly the options that are no product flag |
| OptionsConversion.ChosenProducts | api/domain/order.py:784-787 | the products every sensor entry gets are the nested names of the flags set True, or sr alone when none is |
| OptionsConversion.ConvertOldToNew | api/domain/order.py:762-794 | the product list is the chosen products; success is exactly no leftover options or leftovers _build_nested accepts; the result is the nested options with the scenes filed by sensor, each sensor name holding its scenes and the products, and the resampling method carried over as the corrected nesting of the Findings gives it (the code as written leaves it empty) |
| OptionsConversion.DropOtherSensors | api/domain/order.py:747-749 | the loop removes exactly the entries of sensors other than the scene's own |
| OptionsConversion.LegacyOptions | api/domain/order.py:741-757 | the kept options in legacy form hold every default option, the resampling method, and the flattened options; an input of products alone gives the defaults with those products' flags set |
| OptionsConversion.ConvertNewToOld | api/domain/order.py:733-759 | a scene id that is no string or no known sensor raises; otherwise the result holds every default option, the scene's own sensor's flattened options, and every product it asks for as a True flag |
| OptionsConversion.TrueFlagsOfFlags | api/domain/order.py:780 | on a base with every flag off, the flags set True are exactly the flags added |
| OptionsConversion.DefaultProductsOff | api/domain/order.py:401-417 | every legacy product flag is off in the legacy defaults |
| OptionsConversion.ProductsRoundTrip | api/domain/order.py:733-794 | products converted to legacy options and back come back as the same set, or sr for an empty set |
| OptionsConversion.ConvertArguments | api/domain/order.py:704-730 | convert raises each ValueError and TypeError in its order: no options, both options, no scenes, options not a dict, scenes not a list; otherwise new options convert for the first scene and old ones for all |
| OptionsConversion.Convert | api/domain/order.py:694-730 | convert raises exactly what its argument checks raise, succeeds only when they pass, and a conversion to legacy form holds every default option |
| OptionsConversion.ResampleMethodLost | api/domain/order.py:847-882 | as written, _build_nested turns the legacy {'resample_method': 'cubic'} into resampling_method mapped to an empty dict: the method is lost |
| OptionsConversion.ResampledKeepsMethod | api/domain/order.py:751-755 | with the correction, a legacy resample_method named by the resample table is carried to resampling_method, converts back to the same legacy name as _convert_new_to_old reads it, and every other nested option is kept |
| OptionsConversion.ResampledCubic | api/domain/order.py:678-680 | with the correction the legacy 'cubic' becomes the nested 'cc' |
| Sensor.NewLandsat | api/domain/sensor.py:329-342 | the Landsat constructor answers a Landsat product with the stripped id and the table's shortname, or raises IndexError or ValueError |
| Sensor.NewModis | api/domain/sensor.py:116-134 | the MODIS constructor answers a MODIS product with the id and the table's shortname, or raises IndexError or ValueError |
| Sensor.FindPattern | api/domain/sensor.py:600-604 | the search answers a table entry whose pattern matches, and none exactly when no entry from there on matches |
| Sensor.Build | api/domain/sensor.py:602-603 | the entry's class builds a product carrying that entry's shortname, Landsat exactly for a Landsat entry |
| Sensor.ExtensionIndex | api/domain/sensor.py:587 | str.index: the first position where the extension occurs |
| Sensor.CutExtension | api/domain/sensor.py:582-596 | the corrected cut of the Findings: without a known extension the id is kept; with one, the lowered, stripped id is cut at the extension's first occurrence and the stripped original is cut to the same text, its case kept |
| Sensor.InstanceShortname | api/domain/sensor.py:598-604 | a recognised product's shortname is one of the table's keys |
| Sensor.ReservedNames | api/domain/sensor.py:494-563 | no shortname is plot_statistics, resampling_method or format |
| Sensor.ProductsNotASensor | api/domain/sensor.py:494-563 | no shortname is 'products' |
| Sensor.LandsatSplit | api/domain/sensor.py:333 | a Landsat collection id splits on '_' into its seven fields |
| Sensor.LandsatIdFacts | api/domain/sensor.py:495-508 | an id the Landsat pattern accepts is 40 characters with '_' exactly at the field boundaries and digits in the collection number |
| Sensor.LandsatFields | api/domain/sensor.py:329-342 | the Landsat constructor never raises on an id its pattern accepts, and reads each field at its place |
| Sensor.ModisSplit | api/domain/sensor.py:119 | a MODIS tile name splits on '.' into its five fields |
| Sensor.ModisIdFacts | api/domain/sensor.py:510-562 | a name the MODIS pattern accepts is 41 characters with '.' exactly at the field boundaries and version 005 or 006 |
| Sensor.VersionValue | api/domain/sensor.py:131-132 | int() of the version reads its last digit |
| Sensor.ModisFields | api/domain/sensor.py:116-134 | the MODIS constructor never raises on a name its pattern accepts, and reads each field at its place |
| Sensor.PatternsDisjoint | api/domain/sensor.py:494-563 | no id matches two entries of the table, so the dict's iteration order never decides the shortname |
| Sensor.InstanceMatching | api/domain/sensor.py:598-604 | when entry i matches the cut id, instance builds that entry's product and sets its shortname |
| Sensor.InstanceUnsupported | api/domain/sensor.py:600-607 | instance raises ProductNotImplemented exactly when no entry matches the cut id |
| Sensor.PaddedId | api/domain/sensor.py:582 | a Landsat id padded with a leading space and carrying the .tar.gz extension strips to the id with it |
| Sensor.TrailingCut | api/domain/sensor.py:592-596 | the .tar.gz extension of a 40-character Landsat id is found at position 40 |
| Sensor.PaddedCuts | api/domain/sensor.py:592-596 | on a padded id the corrected cut keeps the whole id, while the written cut, indexing the unstripped id with the stripped one's position, drops its last character |
| Sensor.NewLandsatStrips | api/domain/sensor.py:330 | the Landsat constructor sees only the stripped id |
| Sensor.PaddedInstance | api/domain/sensor.py:566-607 | with the corrected cut, a padded id with extension gives the product of the whole id |
| Sensor.PaddedInstanceAsWritten | api/domain/sensor.py:592-596 | as written, the same id gives a product whose collection category has lost its last character |
| Sensor.InputsOf | api/domain/sensor.py:633-637 | the inputs listed under a shortname all have it |
| Sensor.UnsupportedOf | api/domain/sensor.py:638-642 | the inputs listed as not_implemented are all unsupported |
| Sensor.GroupSnoc | api/domain/sensor.py:629-642 | one more input joins, at the end, the list of its shortname or the not_implemented list, and no other |
| Sensor.Partition | api/domain/sensor.py:629-642 | every input lands exactly once, under its shortname or in not_implemented |
| Sensor.KeysInSomeOrder | api/domain/sensor.py:600 | the keys are visited once each, in some order |
| Sensor.AbsorbSummarises | api/domain/sensor.py:630-642 | one more input absorbed keeps the result a summary of the inputs seen |
| Sensor.GroupInputs | api/domain/sensor.py:629-643 | the loop succeeds exactly when every input is a string instance can classify; then every shortname lists its inputs in order with the family's products and not_implemented lists the rest; another error escapes |
| Sensor.AvailableProducts | api/domain/sensor.py:610-643 | a value that is not iterable raises TypeError; a list is visited in order and a dict by its keys; success is exactly every visited value classifiable, and the result summarises them |
| Sensor.VisitKeys | api/domain/sensor.py:629 | iterating a dict visits each of its keys once |
| Sensor.Product.SensorCode | api/domain/sensor.py:103 | the sensor code is the id's first three characters, of which the id is the code followed by the rest, and a shorter id is its own code |
| Validation.Unknowns | api/providers/validation/validictory.py:242-245 | every issue reported names a field that is visited and not allowed, with the allowed list |
| Validation.UnknownsComplete | api/providers/validation/validictory.py:242-245 | nothing is reported exactly when every field is allowed, and every field not allowed is reported |
| Validation.UnknownFields | api/providers/validation/validictory.py:242-245 | the loop reports the unknown fields in the order visited |
| Validation.OrderValidator.constructor | api/providers/validation/validictory.py:21-28 | a new validator has no errors and no item counts |
| Validation.OrderValidator.SetItemCount | api/providers/validation/validictory.py:414-421 | a key set twice raises 'set multiple times', a maximum that is no integer raises 'must be an integer', and otherwise the key starts counting from 0 up to its maximum; the error list is untouched |
| Validation.OrderValidator.ItemCount | api/providers/validation/validictory.py:423-439 | a value that is no list changes nothing; an unset key raises KeyError; otherwise the count grows by the list's length and the size-limit error is added exactly when the count passes the maximum |
| Validation.OrderValidator.SingleObj | api/providers/validation/validictory.py:195-204 | exactly one error is added, for a dict of more than one object when only one is allowed |
| Validation.OrderValidator.EnumKeys | api/providers/validation/validictory.py:233-245 | a missing value adds nothing; otherwise one 'Unknown key' error is added per visited field (a dict's keys, a list's items, any other value itself) not in the allowed list, in visiting order |
| Validation.OrderValidator.OneOrMoreObjects | api/providers/validation/validictory.py:402-412 | 'No requests for products' is added exactly when the value is a dict holding none of the listed keys |
| Validation.UpperInputs | api/providers/validation/validictory.py:672 | Landsat inputs are upper-cased one by one, and an input that is no string raises AttributeError |
| Validation.ModisInput | api/providers/validation/validictory.py:674-678 | a MODIS input is reformatted exactly when it splits on '.' into at least five parts, and otherwise raises IndexError |
| Validation.ModisInputs | api/providers/validation/validictory.py:674-678 | every MODIS input is reformatted, in order, and the list fails exactly when some input does |
| Validation.WithStats | api/providers/validation/validictory.py:680-682 | 'stats' is appended to a product list that lacks it, and a list holding it is kept |
| Validation.WithStatsIdempotent | api/providers/validation/validictory.py:680-682 | adding stats twice gives what adding it once gives, and the list then holds it |
| Validation.MassageEntry | api/providers/validation/validictory.py:666-682 | a sensor entry keeps its keys and every field other than inputs and products; without stats the products are kept |
| Validation.MassageLandsat | api/providers/validation/validictory.py:671-672 | for a Landsat entry every input is upper-cased in place, and with stats the products hold 'stats' |
| Validation.MassageModis | api/providers/validation/validictory.py:673-678 | for a MODIS entry every input is reformatted in place, and with stats the products hold 'stats' |
| Validation.ModisInputParts | api/providers/validation/validictory.py:674-678 | the reformatted name has the short name and date upper-cased, the tile lowered, version and production date kept |
| Validation.ModisInputIdempotent | api/providers/validation/validictory.py:674-678 | reformatting a reformatted MODIS name changes nothing |
| Validation.MassageSensors | api/providers/validation/validictory.py:659-684 | the loop succeeds exactly when every sensor entry can be massaged; then the keys stay, every non-sensor entry is unchanged and every sensor entry is massaged with the order's stats flag; a failure is some entry's error |
| Validation.MassageFormatting | api/providers/validation/validictory.py:648-684 | the same, with the sensor module's keys and classifier |
| Ordering.SensorProducts | api/providers/ordering/ordering_provider.py:30-37 | a string is split on commas and each piece visited; a list is visited as it is; any other non-iterable raises TypeError; success is exactly every visited value a classifiable string, and the result summarises them |
| Ordering.RemoveFirst | api/providers/ordering/ordering_provider.py:113-116 | list.remove takes out one occurrence of the product, and a missing product leaves the list alone |
| Ordering.RemoveFirstDistinct | api/providers/ordering/ordering_provider.py:113-116 | on a list without repeats, removing a product leaves exactly the other products |
| Ordering.RemoveEachDistinct | api/providers/ordering/ordering_provider.py:91-95 | removing a list of products from a list without repeats leaves exactly the products not listed |
| Ordering.Repeat | api/providers/ordering/ordering_provider.py:101-103 | a product is queued for removal once per failing scene, and only that product |
| Ordering.DateFailures | api/providers/ordering/ordering_provider.py:100-110 | the scenes recorded are exactly the inputs whose date fails the rule |
| Ordering.RemovalsMembers | api/providers/ordering/ordering_provider.py:97-103 | a product is queued for removal exactly when it is offered, has a date rule and some input fails it |
| Ordering.DateUpdAt | api/providers/ordering/ordering_provider.py:106-110 | a product is in date_restricted exactly when it was or some input fails its date rule, and a scene is listed under it exactly when it was or fails |
| Ordering.RemoveListed | api/providers/ordering/ordering_provider.py:112-116 | the removal loop takes out each queued product once, skipping those already gone |
| Ordering.CheckDates | api/providers/ordering/ordering_provider.py:100-110 | the scene loop collects exactly the date failures, in order |
| Ordering.DateChecks | api/providers/ordering/ordering_provider.py:97-110 | the product loop yields the removals and the date_restricted additions its specification defines |
| Ordering.FilterSensor | api/providers/ordering/ordering_provider.py:88-116 | one sensor's offered products lose the role-restricted ones for a non-staff user, then every product some input's date fails; date_restricted records those scenes |
| Ordering.GroupsParsed | api/providers/ordering/ordering_provider.py:100 | every input of a recognised group parses, so sensor.instance never raises in the date loop |
| Ordering.VisitSensor | api/providers/ordering/ordering_provider.py:64-116 | visiting the next sensor extends the pass by one step of its specification |
| Ordering.VisitAll | api/providers/ordering/ordering_provider.py:64-116 | the sensor loop visits every sensor once, in some order, and ends in the fold over that order |
| Ordering.AvailableProductsWith | api/providers/ordering/ordering_provider.py:41-123 | input errors as sensor_products raises them; on success the offer is the fold over the sensors in the visiting order, with date_restricted and ordering_restricted added when non-empty |
| Ordering.AvailableProducts | api/providers/ordering/ordering_provider.py:41-123 | the same, with the sensors of one class sharing one product list as the code has them; date ranges come from the merged rules |
| Ordering.AvailableProductsUnshared | api/providers/ordering/ordering_provider.py:41-123 | corrected: the same, with each sensor filtering its own product list |
| Ordering.ProductsDistinct | api/domain/sensor.py:356-489 | no product list of a sensor class repeats a product |
| Ordering.OwnOutsMembers | api/providers/ordering/ordering_provider.py:88-116 | a sensor offers exactly its products that the user's role allows and whose date rule no input fails |
| Ordering.FoldStep | api/providers/ordering/ordering_provider.py:64 | the fold over n sensors is the fold over n - 1 followed by one visit |
| Ordering.UnsharedList | api/providers/ordering/ordering_provider.py:88-116 | with own lists, a sensor's list is its own filtered products once visited, and its original products before |
| Ordering.RejectedSnoc | api/providers/ordering/ordering_provider.py:97-110 | a scene is date-rejected among n sensors exactly when it was among n - 1 or the n-th rejects it |
| Ordering.DateRestrictedUnshared | api/providers/ordering/ordering_provider.py:106-110 | date_restricted lists a scene under a product exactly when some visited sensor rejected it for that product |
| Ordering.ReservedKeys | api/providers/ordering/ordering_provider.py:118-121 | no shortname is not_implemented, date_restricted or ordering_restricted, so the added keys never hide a sensor |
| Ordering.GroupsAreShortnames | api/domain/sensor.py:629-642 | every group key is a shortname of the table |
| Ordering.ExtrasKeys | api/providers/ordering/ordering_provider.py:118-121 | the keys added beside the sensors are only not_implemented, date_restricted and ordering_restricted |
| Ordering.OfferedSensor | api/providers/ordering/ordering_provider.py:78-86 | a sensor stays in the offer exactly when 'all' does not restrict its ordering, and then offers its current list with its inputs |
| Ordering.OfferExtras | api/providers/ordering/ordering_provider.py:118-121 | not_implemented, date_restricted and ordering_restricted appear exactly when non-empty, each with what was collected |
| Ordering.OrderingRestrictedListed | api/providers/ordering/ordering_provider.py:78-86 | ordering_restricted lists a sensor exactly when it was visited, is restricted by 'all' and has inputs, and then lists all its inputs |
| Ordering.OfferedUnshared | api/providers/ordering/ordering_provider.py:88-116 | with own lists every unrestricted sensor offers exactly its own filtered products |
| Ordering.SharedListsLeak | api/providers/ordering/ordering_provider.py:111-116 | as written, with two sensors of one class, a product the role removed from the first is missing from the second as well |
| Ordering.CancelledScenes | api/providers/ordering/ordering_provider.py:196-200 | cancelling keeps the scene table's keys |
| Ordering.CancelledScenesAt | api/providers/ordering/ordering_provider.py:196-200 | a scene of the order in a killable state becomes cancelled, every other scene is unchanged, and names and orders stay |
| Ordering.CancelIdempotent | api/providers/ordering/ordering_provider.py:196-200 | cancelling an order twice leaves what cancelling it once left |
| Ordering.CancelOrder | api/providers/ordering/ordering_provider.py:182-209 | an unknown order raises 'Order not found' and changes nothing; otherwise its killable scenes are cancelled, the order becomes cancelled and is returned; users, cache and disk are untouched |
| Ordering.UsersBy | api/providers/ordering/ordering_provider.py:130-137 | the user search uses the username when given, else the e-mail, else the id |
| Ordering.FetchUserOrders | api/providers/ordering/ordering_provider.py:125-150 | filters that are no dict raise; no search key leaves usearch unbound and raises; anything but exactly one user gives no orders; every order returned is that user's, and without filters all of them |
| Ordering.FetchOnlyOwnOrders | api/providers/ordering/ordering_provider.py:143-149 | filters only narrow the orders returned without them |
| Ordering.SearchOf | api/providers/ordering/ordering_provider.py:225-232 | the scene search filters by status exactly when asked, by the name filter when given, and else by the item id unless it is ALL |
| Ordering.ItemStatus | api/providers/ordering/ordering_provider.py:211-237 | filters that are neither a dict nor None raise TypeError; an unknown user without an order id raises; the response holds only the given order, and every scene listed belongs to its order and matches the search |
| Ordering.ScenesByOrder | api/providers/ordering/ordering_provider.py:234-236 | every selected order has an entry, and each entry lists exactly its matching scenes |
| Ordering.ItemStatusComplete | api/providers/ordering/ordering_provider.py:220-236 | with no filters every scene of the given order is listed |
| ProductionOrders.OrderScenes | api/providers/production/production_provider.py:945 | an id is in the set exactly when it is a scene of the order |
| ProductionOrders.InStatus | api/providers/production/production_provider.py:946-947 | an id is in the set exactly when it is a scene of the order in the given status |
| ProductionOrders.Plots | api/providers/production/production_provider.py:956 | an id is in the set exactly when it is a plot scene of the order |
| ProductionOrders.OrdersOf | api/providers/production/production_provider.py:941 | one order (at most) per listed plot scene |
| ProductionOrders.PlotStepFacts | api/providers/production/production_provider.py:944-971 | one order of the plot pass fails exactly when the order is missing or its one open scene sits beside a plot count other than one; on success it changes no scene except, when exactly one scene is open, the order's plot, which becomes unavailable with its note when nothing completed and on cache otherwise |
| ProductionOrders.PlotWaitsForInputs | api/providers/production/production_provider.py:949-951 | when the plot is still submitted and only one scene of its order is open, every other scene of the order is complete or unavailable |
| ProductionOrders.PlotReleased | api/providers/production/production_provider.py:958-968 | releasing the single plot changes that scene only, keeps the order's scenes, plots and completed set, and adds the plot to the unavailable set exactly when nothing completed |
| ProductionOrders.PlotIdempotent | api/providers/production/production_provider.py:944-971 | a second plot pass over a released order changes nothing further |
| ProductionOrders.PlotRerun | api/providers/production/production_provider.py:955-968 | an order whose plot already went on cache passes through unchanged |
| ProductionOrders.PlotOrder | api/providers/production/production_provider.py:944-971 | the scene table becomes what one plot step gives, or is left alone and the step's error returned; orders, users, cache and disk are untouched |
| ProductionOrders.HandleSubmittedPlotProducts | api/providers/production/production_provider.py:933-972 | succeeds with True exactly when the plot pass over the plots' orders succeeds, leaving the scenes it computes; on an error the scenes are those of the pass up to the failing order, and the error is the pass's |
| ProductionOrders.PassStops | api/providers/production/production_provider.py:944-971 | the first order whose step raises makes the whole pass raise that error |
| ProductionOrders.PassErrs | api/providers/production/production_provider.py:944-971 | once a prefix of the orders fails, the whole pass fails the same way |
| ProductionOrders.CheckedOrderFacts | api/providers/production/production_provider.py:996-1011 | an order with an open scene is unchanged; a changed order is complete; a finished order is complete as of now unless it is an espa order whose completion e-mail fails; an espa order completed here records its e-mail as sent; checking twice is checking once; the order id and source are kept |
| ProductionOrders.UpdateOrderIfComplete | api/providers/production/production_provider.py:982-1012 | raises TypeError with the source's message exactly when the order does not exist; otherwise returns True and replaces only that order by its checked form; the scenes and the rest of the store are untouched |
| ProductionOrders.FinalizeOrders | api/providers/production/production_provider.py:1032-1039 | succeeds exactly when every listed order exists, and then every listed order is checked and every other is unchanged; a failure is a TypeError |
| ProductionOrders.FinalizeStep | api/providers/production/production_provider.py:1038 | checking one more order extends the finalized state to the longer list |
| ProductionOrders.SizedFacts | api/providers/production/production_provider.py:1021-1026 | a product whose download exists gets its size and nothing else changes; a missing one goes to error with the missing-download note and nothing else changes; doing it twice is doing it once |
| ProductionOrders.CalcSceneDownloadSizes | api/providers/production/production_provider.py:1014-1030 | returns True; every listed scene is sized and every other scene is unchanged; the other tables are untouched |
| ProductionOrders.Purgeable | api/providers/production/production_provider.py:1050 | an order is selected exactly when it is complete with a completion date before the cutoff |
| ProductionOrders.PurgeOne | api/providers/production/production_provider.py:1060-1074 | the order becomes purged, each of its products is purged with its log, locations, urls and job name cleared, every other row is unchanged, and its directory leaves the cache exactly when the delete succeeds |
| ProductionOrders.PurgeAll | api/providers/production/production_provider.py:1057-1078 | after the loop, exactly the given orders and their products are purged and exactly their deletable directories are gone |
| ProductionOrders.PurgeOrders | api/providers/production/production_provider.py:1041-1088 | returns True and purges exactly the orders completed more than the policy's days before now, as PurgeAll states |
| ProductionOrders.PurgeIdempotent | api/providers/production/production_provider.py:1041-1078 | after a purge no order is purgeable, and every order selected is purged |
| ProductionOrders.InitialSentIdempotent | api/notification/emails.py:96-99 | sending again sends nothing twice; the initial e-mail is recorded exactly when it was recorded before or the send succeeds |
| ProductionOrders.SendAllInitial | api/notification/emails.py:92-103 | returns True; every listed order without an initial e-mail gets one recorded when the send succeeds, and every other order and table is unchanged |
| ProductionCycle.DaySeconds | api/providers/production/production_provider.py:1260 | timedelta's seconds field: the elapsed time's part within its day, between 0 and a day |
| ProductionCycle.LapsedAsWrittenThreshold | api/providers/production/production_provider.py:1260-1261 | within one day the as-written test marks a scene only from 660 seconds on, not from 601 |
| ProductionCycle.LapsedRulesDisagree | api/providers/production/production_provider.py:1260-1261 | 630 seconds, and a day and five minutes, pass the intended ten-minute rule and fail the rule as written |
| ProductionCycle.CaughtFacts | api/providers/production/production_provider.py:1241-1263 | only orphans change; a scene becomes orphaned only after it was reported and the rule says enough time lapsed; an orphaned scene stays orphaned; a report time is set exactly on an unmarked orphan without one; nothing but the two bookkeeping fields changes |
| ProductionCycle.CaughtAll | api/providers/production/production_provider.py:1246-1249 | the catch pass keeps the set of scenes |
| ProductionCycle.CatchOrphanedScenes | api/providers/production/production_provider.py:1241-1263 | returns True and leaves every scene as one catch pass at the given time makes it; the other tables are untouched |
| ProductionCycle.CatchAll | api/providers/production/production_provider.py:1251-1261 | visiting the orphans one at a time gives the catch pass over the whole table |
| ProductionCycle.CatchOne | api/providers/production/production_provider.py:1252-1261 | a scene already marked orphaned is skipped unsaved; an orphan that is not is saved as the catch pass makes it |
| ProductionCycle.HandleStuckJobs | api/providers/production/production_provider.py:1109-1125 | returns nothing exactly when no scene is stuck and then changes nothing; otherwise a catch pass runs and every stuck scene now marked orphaned is resubmitted, and nothing else changes |
| ProductionCycle.ClearTwice | api/providers/production/production_provider.py:1275-1281 | the two bulk updates together clear the orphan bookkeeping of every scene |
| ProductionCycle.ClearOrphanFlags | api/providers/production/production_provider.py:1275-1281 | every scene's report time and orphan mark are cleared and nothing else changes |
| ProductionCycle.ResubmitMarked | api/providers/production/production_provider.py:1288-1292 | every scene marked orphaned and still queued or processing is cleared and resubmitted; nothing else changes |
| ProductionCycle.ResubmitOrphanedScenes | api/providers/production/production_provider.py:1265-1295 | returns True and leaves every scene as clearing, two catch passes 630 seconds or more apart, and the final resubmission make it |
| ProductionCycle.ResubmitAsWrittenFindsNothing | api/providers/production/production_provider.py:1283-1292 | with the rule as written and the passes less than 660 seconds apart, no scene is marked orphaned, so none is resubmitted |
| ProductionCycle.ResubmitIntended | api/providers/production/production_provider.py:1265-1295 | with the intended rule a scene is resubmitted from queued or processing exactly when both passes find it orphaned, and then it is cleared and submitted; otherwise its status is kept |
| ProductionCycle.ResetProcessingStatus | api/providers/production/production_provider.py:1298-1309 | returns True exactly when some scene was queued or processing; every such scene is submitted and nothing else changes |
| ProductionCycle.ResetLeavesNothingInFlight | api/providers/production/production_provider.py:1298-1309 | after the reset no scene is queued or processing, and a second reset changes nothing |
| ProductionCycle.StripUnrelated | api/providers/production/production_provider.py:1204-1220 | a parse failure of the scene raises that error; on success the options are a dict, 'products' is present, every other key kept is a non-sensor key of the options with its value, and every non-sensor key is kept |
| ProductionCycle.StripUnrelatedProducts | api/providers/production/production_provider.py:1211-1218 | when stripping succeeds the scene is a known sensor whose group is in the options; the top-level products are that group's products, and the group itself is gone |
| ProductionEe.EeRowFacts | api/providers/production/production_provider.py:603-628 | a unit's row is the parsed product id with the unit number and order; it is unavailable exactly when the date is outside the SR range, and submitted otherwise; its sensor type is modis exactly for a MODIS product, which is never made unavailable |
| ProductionEe.GenEeSceneList | api/providers/production/production_provider.py:592-631 | the list succeeds exactly when every unit's row builds, and then holds those rows in order; a failure is the error of some unit's row |
| ProductionEe.CreateScenes | api/providers/production/production_provider.py:647 | Scene.create: the old rows are kept and each new row is stored under its own new key above them; no other row appears |
| ProductionEe.LoadEeScenes | api/providers/production/production_provider.py:633-666 | success means every row built and creation did not fail, and then the rows are created and the orders kept; when every row builds and creation does not fail it succeeds; on failure no scene is added; a caught creation failure raises ProductionProviderException and deletes a new order but keeps an order whose missed units were being added; every other failure keeps the orders |
| ProductionEe.MissingMembers | api/providers/production/production_provider.py:684-706 | a unit is listed as missing exactly when it is one of the order's units with no scene of that unit number |
| ProductionEe.ReportStep | api/providers/production/production_provider.py:687-703 | reporting a unit with a scene changes that scene alone, flagging its letter exactly when the report fails |
| ProductionEe.ReportSkip | api/providers/production/production_provider.py:704-706 | a unit with no scene changes no row |
| ProductionEe.ReportUnit | api/providers/production/production_provider.py:684-706 | one unit is found exactly when the order has a scene for it, and the rows become those of reporting one more unit |
| ProductionEe.ReportAll | api/providers/production/production_provider.py:684-706 | after the loop the rows are flagged as the reports leave them and the missing units are exactly those without a scene, in order |
| ProductionEe.ReportUnits | api/providers/production/production_provider.py:684-706 | the store's rows become the reported rows, the missing units are returned, and the cache is kept or gets the LTA failure stamp; nothing else changes |
| ProductionEe.UpdateEeOrders | api/providers/production/production_provider.py:668-714 | with no missing unit the rows are reported and the orders kept; with a missing unit a missing order raises AttributeError, a readable order gets the default options of all its units, and the missed units are loaded successfully when their rows build and creation does not fail; every existing scene ends in its reported state |
| ProductionEe.LoadMissed | api/providers/production/production_provider.py:707-714 | a missing order raises AttributeError; a readable order gets the default options of all its units, and the missed units load when their rows build and creation does not fail; existing scenes are kept |
| ProductionEe.ResentStep | api/providers/production/production_provider.py:1096-1099 | resending one more scene clears its flag exactly when the resend succeeds, and changes no other row |
| ProductionEe.ResendOne | api/providers/production/production_provider.py:1096-1106 | with the database down a successful resend raises and nothing is written; otherwise the rows become those of resending one more scene |
| ProductionEe.HandleFailedEeUpdates | api/providers/production/production_provider.py:1091-1107 | with the database up it returns True and clears the flag of every listed scene whose resend succeeds; with it down no row changes and it raises ProductionProviderException exactly when some resend would have succeeded |
| ProductionEe.ResentIdempotent | api/providers/production/production_provider.py:1091-1107 | resending again changes nothing further |
| ProductionEe.ResentKeepsFailures | api/providers/production/production_provider.py:1100-1106 | a flagged scene keeps its flag exactly when its resend fails again, to be retried later |
| ProductionHandlers.BulkSetFacts | api/providers/production/production_provider.py:723 | Scene.bulk_update of status and note: a listed row gets both and keeps everything else and its product; an unlisted row is unchanged |
| ProductionHandlers.HandleRetryProducts | api/providers/production/production_provider.py:716-727 | returns True and every listed product is submitted again with an empty note; nothing else changes |
| ProductionHandlers.FinishedCancelIdempotent | api/providers/production/production_provider.py:738-743 | finishing a cancellation twice finishes it once, and keeps the order id and source |
| ProductionHandlers.FinishCancel | api/providers/production/production_provider.py:735-743 | for an order whose scenes are all cancelled and whose e-mail is not recorded, its directory leaves the cache when the delete succeeds and stays when it fails, and an espa order's cancellation e-mail is sent and recorded; otherwise nothing changes; it fails exactly when that e-mail cannot be sent |
| ProductionHandlers.CancelledDirsSnoc | api/providers/production/production_provider.py:739-740 | one more order adds its own directory to those removed exactly when it is pending and its delete succeeds |
| ProductionHandlers.CancelStep | api/providers/production/production_provider.py:734-743 | finishing one more order extends the finished state of the pass |
| ProductionHandlers.HandleCancelledOrders | api/providers/production/production_provider.py:730-744 | on success returns True, every listed order is finished and every other kept, exactly the directories of the pending orders whose delete succeeds are gone, and every pending espa order got its e-mail; the only failure is the mailer's; scenes are untouched |
| ProductionHandlers.Smallest | api/providers/production/production_provider.py:756 | sorted(...)[:n]: the n least members (all of them when fewer), ascending, none absent from the set, and every member left out is above all taken |
| ProductionHandlers.TramKey | api/providers/production/production_provider.py:755-756 | the sort key of a tram order id: None sorts before every id, and ids keep their order |
| ProductionHandlers.TramOf | api/providers/production/production_provider.py:758-768 | the tram order id a sort key stands for, inverse of TramKey |
| ProductionHandlers.UnitsIn | api/providers/production/production_provider.py:771-775 | a name is collected exactly when some unit of the status report has that status and scene id |
| ProductionHandlers.CollectUnits | api/providers/production/production_provider.py:766-775 | a name is rejected exactly when some polled tram order reports it 'R', and available exactly when one reports it 'C' |
| ProductionHandlers.HandleOnorderLandsatProducts | api/providers/production/production_provider.py:746-794 | returns True; the polled tram orders are at most 500, ascending, drawn from the products' tram ids, and every id left out lies above all of them; every scene ends as the on-order outcome says and nothing else changes |
| ProductionHandlers.OnorderCompose | api/providers/production/production_provider.py:782-792 | rejecting then promoting gives each scene its on-order outcome |
| ProductionHandlers.RejectProducts | api/providers/production/production_provider.py:782-785 | every product whose name is rejected is made unavailable with the Level 1 note and flagged when its push fails; every other row is unchanged |
| ProductionHandlers.PromoteAvailable | api/providers/production/production_provider.py:788-792 | every on-order scene whose name is available goes on cache with an empty note; every other row is unchanged |
| ProductionHandlers.OnorderFacts | api/providers/production/production_provider.py:778-792 | a rejected product ends unavailable; an on-order scene reported complete and not rejected goes on cache; a scene reported neither way is unchanged; the product is always the same |
| ProductionHandlers.VerifiedFacts | api/providers/production/production_provider.py:836-845 | a checked product goes on cache with the note "''" exactly when the inventory finds it, and otherwise becomes unavailable with the archive note and a completion date; the product is the same |
| ProductionHandlers.VerifyAvailability | api/providers/production/production_provider.py:836-845 | every listed product is checked against the inventory and every other row is unchanged |
| ProductionHandlers.VerifyCompose | api/providers/production/production_provider.py:839-845 | the bulk update of the valid products followed by marking the invalid ones gives each listed product its checked outcome |
| ProductionHandlers.HandleSubmittedModisProducts | api/providers/production/production_provider.py:901-931 | returns False exactly when the inventory is down, and then changes nothing; otherwise every listed product is checked and every other row is unchanged |
| ProductionHandlers.LandsatScenes | api/providers/production/production_provider.py:827 | a scene is selected exactly when it is a submitted landsat scene of one of the user's orders |
| ProductionHandlers.CheckDependencies | api/providers/production/production_provider.py:849-872 | succeeds exactly when each scene's options can be read, and then keeps exactly the scenes whose dependencies are met, in their own order; a failure is some scene's error |
| ProductionHandlers.UpdateLandsatProductStatus | api/providers/production/production_provider.py:819-846 | an unknown contact raises; on success the 500 least submitted landsat scenes of the contact's user are picked in ascending order, those passing the dependency check are checked against the inventory, and no other row changes |
| ProductionHandlers.LandsatStep | api/providers/production/production_provider.py:887-895 | one contact's update, or its failure, keeps the pass's outcome within the checked-or-unchanged state |
| ProductionHandlers.HandleSubmittedLandsatProducts | api/providers/production/production_provider.py:874-899 | returns False exactly when the inventory is down; fails exactly when a listed scene's order is missing; anything but True leaves the scenes alone; on True every scene is unchanged or is a submitted landsat scene of a listed contact's user whose dependencies are reachable, checked against the inventory |
| ProductionRun.Pending | api/providers/production/production_provider.py:1132-1143 | an order is pending exactly when it is ordered and, when a user is given, belongs to that user |
| ProductionRun.EarlyPasses | api/providers/production/production_provider.py:1148-1172 | the initial e-mails, on-order, stuck, retry, failed LTA update and cancelled order passes run in turn; a failure can only be the LTA resend's or the mailer's; users and cache are untouched |
| ProductionRun.LatePasses | api/providers/production/production_provider.py:1174-1187 | the submitted landsat (first 500), modis and plot passes, the download sizes and the order completion run in turn, the first error ending the pass; users and cache are untouched |
| ProductionRun.PurgeUnderLease | api/providers/production/production_provider.py:1189-1200 | the purge runs exactly when no live lease is cached; then the lease is stamped for its timeout, exactly the orders completed before the cutoff are purged and none is left to purge; otherwise nothing changes |
| ProductionRun.HandleOrders | api/providers/production/production_provider.py:1127-1201 | an unknown username raises AttributeError before anything changes; the result is False exactly when there is no pending order, and then nothing changes; after True the purge lease is live, freshly taken unless one was, and a purge that ran left nothing to purge; users are never changed |

## Left out

External systems and I/O:

- LTA, M2M inventory, online cache, hadoop, SMTP and the HTTP layer are left out except through their results. The parameters above stand for the answers those systems give. A failing system is one that answers "failed". Network errors inside them are not modelled.
- The log lines of every handler are left out, because they change no state.
- `send_purge_report`, the purge report e-mail purge_orders sends, is left out. It is an e-mail with no effect on the store.
- The capacity readings taken around the purge are left out, because they are only logged.
- The wall clock is left out: every `datetime.now()` of one pass is the single `env.now`. Comparing stored and retry timestamps as formatted strings is modelled as comparing integers.
- `load_ee_orders`, the fetch of new EE orders from LTA that handle_orders starts with, is not modelled. It is network I/O; what it loads is modelled by `ProductionEe.LoadEeScenes`.
- Order.where, Scene.where, save and bulk_update are SQL. They are modelled as reads and writes of the maps in `Store.Db`. A database exception is not modelled, except in handle_failed_ee_updates, where `dbUp` stands for a DBConnectException.
- The last six lines of `ProductionRun.Run` are configuration and cluster reads, taken as given: the stuck set (status_modified older than six hours), the job list, and the purge policy values.

Assumptions and approximations:

- `Scene.bulk_update` and the per-scene saves of one handler are written to the store as one update. No handler in the model can observe an intermediate state.
- A handler that raises partway through leaves its partial writes. This holds for handle_cancelled_orders and the plot pass, and the model says what that prefix is. Database transactions are not modelled.
- ProductionEe.UpdateEeOrders and ProductionEe.ReportUnits require unit numbers to be unique within an order (`UnitsUnique`). The code takes the first scene of a unit; uniqueness is a database constraint not visible in the source.
- ProductionRun.HandleOrders requires usernames to be unique (`NamesUnique`), for the same reason.
- Order ids are assumed unique where queue_products groups by them (`Keyed`).
- ProductionEe.ReportUnits: with several failed reports, the 'lta.cannot.update' stamp is written once per pass. The code writes it once per failure, each time with the current time, and one clock value stands for all of them.
- ProductionHandlers.HandleOnorderLandsatProducts and ProductionHandlers.UpdateLandsatProductStatus take `sorted(...)[:500]` as the 500 least ids, with None before every tram id as Python 2 orders it.
- ProductionRun.LatePasses: handle_orders' unordered `Scene.where(...)[:500]` is modelled as the 500 least ids, because the SQL gives no order.
- Store.CancelOpts: `Scene.cancel_opts` is in `api/domain/scene.py`, which is not part of this model. It is taken to set the status to cancelled and change nothing else.
- `user.by_username` and `User.by_contactid` live in `api/domain/user.py`, which is not part of this model. They are taken to return None for an unknown name, which the code then dereferences.
- ErrorClassifier.AddRetry: the shared mutable default dict of `__add_retry` is modelled as a fresh dict per call. Python's aliasing of that default across calls is left out.
- The handle_retry_products wrapper, which re-raises any exception as ProductionProviderException, is left out, because the in-memory update cannot fail.
- The regular expressions of sensor.py are modelled as the character-class predicates they denote. Python's `\w` is taken as ASCII letters, digits and underscore (Python 2's default without re.UNICODE).
- `str.lower`/`str.upper` are ASCII-only, as Python 2 byte strings are.

Operations not modelled:

- `place_order` (ordering_provider.py:156-180) generates the order id from the clock and saves through the database. `OrderDomain.CreateScenes` models the scene rows it creates.
- `fetch_order` (ordering_provider.py:152-154) and `get_system_status` (ordering_provider.py:239-251) are plain database and configuration reads.
- `production_whitelist`, `get_products_to_process`, `query_pending_products`, `parse_urls_m2m` and `converted_opts` are left out. They build work lists for the cluster from SQL, configuration and hostnames, and are not part of the state machine.

Weaker contracts:

- ProductionRun.EarlyPasses and ProductionRun.LatePasses do not restate what each handler does to the scenes and orders. Each handler's own contract says that, and these two state only the tables they keep and which errors they pass on.
- ProductionRun.HandleOrders states the pending check, the unknown user, the purge lease and that users never change. It does not restate the composed effect of all the handlers on the scenes.
- ProductionEe.UpdateEeOrders: for units missed on the first load, it states the new options of the order, that every existing row ends in its reported state, and when loading succeeds. It does not restate the keys of the rows created, which `ProductionEe.LoadEeScenes` states.
- ProductionHandlers.HandleSubmittedLandsatProducts: it states that every changed scene is a submitted landsat scene of a listed contact, with reachable dependencies, set to its inventory verdict. It does not state which of those scenes each contact's update picks: the 500 least ids left in its user's submitted landsat scenes. `ProductionHandlers.UpdateLandsatProductStatus` states that for one contact.
- Metrics.BuildSql: Python's `list()` of a set is the parameter `listOf`, a function of the set's members, and it is required to list each member once. CPython's order also depends on how the set was built; that dependence is left out. Metrics.Conjuncts reads the same parameter. The required fragments follow the mapping's own iteration order, as the association list holds it.

Corrected behaviour the operations use. The Findings below each have an as-written member and a corrected one, and the operations are built on the corrected one. What the code as written does differently is therefore not modelled in these members:

- Sensor.CutExtension: the cut is made on the stripped id. sensor.py:589 and 595 cut the unstripped id at the stripped id's index; that cut is `Sensor.CutExtensionAsWritten`, and on an id with a leading blank it drops the last character (`Sensor.PaddedInstanceAsWritten`).
- Sensor.InstanceMatching: builds the product from the corrected cut, so a padded id is not shortened as sensor.instance as written shortens it.
- Sensor.GroupInputs: classifies every input with the corrected `Sensor.Instance`; a padded input's product is not shortened.
- Sensor.AvailableProducts: classifies with the corrected `Sensor.Instance`, as Sensor.GroupInputs does.
- ErrorClassifier.NameError: parses the product name with the corrected `Sensor.Instance`.
- OrderDomain.SensorType: the sensor type comes from the corrected `Sensor.Instance`, and "fails exactly when not supported" is proved of it, not of the as-written cut.
- OrderDomain.DefaultEeOptions: `OrderDomain.EeOptions` instantiated with the corrected `Sensor.Instance`.
- OrderDomain.CreateScenes: `OrderDomain.SceneRows` instantiated with the corrected `Sensor.Instance`.
- OptionsConversion.ConvertNewToOld: classifies each scene with the corrected `Sensor.Instance`.
- OptionsConversion.ConvertOldToNew: a legacy `resample_method` is nested as `Resampled` corrects it (`OptionsConversion.ResampledKeepsMethod`). The code as written leaves `resampling_method: {}` (`OptionsConversion.ResampleMethodLost`).
- Validation.MassageFormatting: `Validation.MassageSensors` instantiated with the corrected `Sensor.Instance`.
- Ordering.SensorProducts: classifies with the corrected `Sensor.Instance`.
- Ordering.GroupsParsed: proved of the corrected `Sensor.Instance`. Whether the as-written cut can make a product's constructor fail in the date loop is not modelled.
- Ordering.FilterSensor: reads a product's date range from the merged rules (`Restrictions.ByDateLookup`). The code reads `sensor_restr['by_date'][prod]` (ordering_provider.py:99), which raises KeyError for a sensor with no `by_date` entry of its own when 'all' restricts the product (`Restrictions.ByDateLookupFails`); that KeyError is not modelled.
- Ordering.AvailableProductsWith: uses the merged lookup of Ordering.FilterSensor and the corrected `Sensor.Instance`, so neither the KeyError nor a shortened product is modelled.
- Ordering.AvailableProducts: shares the product lists as the code does, but uses the merged lookup and the corrected `Sensor.Instance` of Ordering.AvailableProductsWith.
- ProductionCycle.StripUnrelated: parses the scene with the corrected `Sensor.Instance`.
- ProductionEe.EeRowFacts: uses `Restrictions.SrDateRestricted`, which answers False for a MODIS product. production_provider.py:610 calls `sr_date_restricted`, which only Landsat defines, so a MODIS EE unit raises AttributeError there (`Restrictions.SrDateRestrictedOnlyLandsat`). That failure is not modelled.
- ProductionEe.GenEeSceneList: builds a row for a MODIS unit, as ProductionEe.EeRowFacts does, where the code raises AttributeError.
- ProductionEe.LoadEeScenes: loads MODIS units, through ProductionEe.GenEeSceneList, where the code raises AttributeError.

## Findings

| source | as written | input that shows it | evidently intended | confidence | as-written member | corrected member |
|---|---|---|---|---|---|---|
| api/domain/order.py:847-882 | `_convert_old_to_new` passes a legacy `resample_method` to `_build_nested`. The keyword row nests the resample table, which names only the method values, so the result is `resampling_method: {}` | legacy options `{'resample_method': 'cubic'}` | the nested `resampling_method` carries the method's nested name (`'cc'`), as `_convert_new_to_old` reads it back | not executed | OptionsConversion.ResampleMethodLost | OptionsConversion.ResampledKeepsMethod |
| api/domain/sensor.py:582-596 | `instance` finds the extension's index in the stripped, lower-cased id but cuts the original id at that index. A leading blank shifts the cut by one, so the constructor gets the id less its last character, and the collection category comes out as one letter | `' '` + a 40-character Landsat id + `'.tar.gz'` | the cut is made on the stripped id, so surrounding blanks do not change the product | not executed | Sensor.PaddedInstanceAsWritten | Sensor.PaddedInstance |
| api/domain/sensor.py:349-353 | `sr_date_restricted` is defined for Landsat only. gen_ee_scene_list calls it for every EE unit, so a MODIS unit raises AttributeError | any EE unit with a MODIS tile id | a MODIS product is never SR date restricted | not executed | Restrictions.SrDateRestrictedOnlyLandsat | Restrictions.SrDateRestricted |
| api/providers/ordering/ordering_provider.py:98-99 | the date-restriction check reads `sensor_restr['by_date'][prod]`. A sensor without its own `by_date` entry raises KeyError even when `'all'` restricts it | sensor `tm5` with no `by_date` entry while `'all'` lists `sr` | the rule is read from the merged rules just built, in which 'all' overrides the sensor's own | not executed | Restrictions.ByDateLookupFailsExample | Restrictions.ByDateLookup |
| api/providers/production/production_provider.py:1254-1261 | the orphan test reads `timedelta.seconds`, which drops whole days, and divides by 60 in whole minutes. An orphan is marked only from 660 seconds, and a delay of a day and five minutes does not count. resubmit_orphaned_scenes waits `time.sleep(630)` between its two passes, so when they are less than 660 seconds apart it resubmits nothing | two catch passes 630 seconds apart; a report 86400 + 300 seconds old | more than ten minutes since the first report marks the scene orphaned | not executed | ProductionCycle.ResubmitAsWrittenFindsNothing | ProductionCycle.ResubmitIntended |
| api/providers/ordering/ordering_provider.py:51-116 | `sensor_products` gives the sensors of one class one shared product list, and `deepcopy` keeps that sharing. Removing a restricted product from one sensor's outputs therefore removes it from every sensor of the class in the same response | a non-staff user asking for two sensors of the same class, one restricted | each sensor's outputs are filtered on their own | not executed | Ordering.SharedListsLeak | Ordering.AvailableProductsUnshared |
