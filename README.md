# Returns-agent demo back ends, in Dafny

This project models the simulated back ends of the e-commerce returns agent demo, and
the test double its Java process tests use. Dafny proves what each one promises.

- **Records and store.** The record types and the in-memory `DataStore` of
  `fake-backends/models.py` and `fake-backends/data_store.py`. The store is a class of eleven
  collections with a fixture, `reset` and id generation.
- **Routers.** The HTTP handlers of the commerce, ERP, policy, warehouse, payments,
  returns-label and notification simulators (`fake-backends/routers/*.py`). Each handler is a
  pure outcome function that states its error cases and its result. A handler that changes
  the store is also a module-level method that takes the `DataStore` and states its new
  state in full.
- **Job worker.** The Zeebe job worker `fake-backends/camunda_worker.py`: environment
  lookup, channel choice, `_get`, `_build_url`, the validation and dispatch of every
  operation, and the job handler. The HTTP call is a function parameter.
- **Inbound proxy.** The header and body decisions of the webhook proxy
  `fake-backends/routers/inbound.py`.
- **Connector mock.** `HttpJsonConnectorMock.java`, a FIFO queue of stubs with fluent builders.
  It is modelled with classes, because its stubs hold their response builder by reference.

Modelling choices:
- Money is integer cents and time is integer seconds.
- `datetime.now()` and the `uuid4()` hex digits are parameters.
- Job variables, response bodies and the mock's variables are a JSON-like `Values.Value`.
  Its objects keep insertion order, as Python dicts do. It has integers but no floats.

Where the record enum and the fixture disagree, the enum wins in the code as written.
`data_store.py:98` files a product under `ProductCategory.NETWORKING`, which `models.py:16-20`
does not declare. The attribute lookup raises, so `DataStore()` fails part-way through the
fixture (see "## Findings"). The model adds `Networking` (value "networking") to the enum and
runs the fixture as evidently intended; `Models.DeclaredCategories` gives the four declared
categories, and `Store.FixtureAsWritten` models the failing run.

The FEEL result-expression evaluator is not part of this model: the worker file has no
definition of it.

Modules:
- `Results`, `Text`, `Lists`, `OrderedDict`: shared helpers.
  - Python `str.lower`, `strip`, `split` and substring tests.
  - Filtering, stable sorting.
  - Insertion-ordered dicts.
- `Values`: job and response values.
- `Models`: the record types.
- `Store`: the store.
- `Commerce`, `Erp`, `Policy`, `Wms`, `Payments`, `ReturnsProvider`, `Notifications`,
  `Worker`, `Inbound`, `ConnectorMock`: one per source file.

## Model

| member | source | states |
|---|---|---|
| Models.OrderStatusOf | fake-backends/models.py:8-14 | the member found for a string has that string as its value, and every value finds its member |
| Models.AllOrderStatuses | fake-backends/models.py:8-14 | there are exactly six order statuses, pairwise distinct, and every status is among them |
| Models.DeclaredCategories | fake-backends/models.py:16-20 | the declared categories are exactly four, every category except the fixture's extra `Networking` |
| Models.NewAddress | fake-backends/models.py:24-29 | an address built without a country gets "USA"; every other field is as given |
| Models.NewProduct | fake-backends/models.py:40-50 | a product defaults to lifecycle "active", in stock, 100 units, no wifi standard and no tags |
| Models.NewRma | fake-backends/models.py:76-83 | an RMA defaults to status "approved" and is created at the current time |
| Models.NewCart | fake-backends/models.py:93-102 | a new cart has no lines, no store credit and subtotal 0 |
| Models.SubtotalAppend | fake-backends/models.py:100-102 | appending a line adds quantity times unit price to the cart subtotal |
| Models.SubtotalSetQuantity | fake-backends/models.py:100-102 | changing one line's quantity changes the subtotal by the difference times that line's unit price |
| Models.NewExpectedReturn | fake-backends/models.py:134-141 | an expected return defaults to status "expected" with no override reason |
| Models.NewShipment | fake-backends/models.py:143-149 | a shipment defaults to status "released" |
| Models.NewStoreCredit | fake-backends/models.py:179-185 | a store credit defaults to not applied |
| Models.NewCharge | fake-backends/models.py:187-193 | a charge defaults to status "completed" |
| Store.DemoSkusDistinct | fake-backends/data_store.py:66-132 | the five fixture skus are distinct |
| Store.DemoProductsFresh | fake-backends/data_store.py:66-132 | each fixture product is stored under its own sku, and keyed assignment into an empty dict keeps all five in order |
| Store.InitialStateValid | fake-backends/data_store.py:46-132 | the fixture satisfies the store invariant: products keyed by their own sku, carts by their own id |
| Store.InitialCounts | fake-backends/data_store.py:13-26 | a fresh store holds 1 customer, 5 products and 11 orders, and every other collection is empty |
| Store.FixtureOverEmpty | fake-backends/data_store.py:46-504 | running the fixture over empty customers, products and orders yields exactly the fixture there and changes nothing else |
| Store.DuplicateFixtureOrders | fake-backends/data_store.py:304-504 | order ids in the fixture are not unique: ORD-2025-008891 to -008893 occur twice, as identical records |
| Store.PutAllAsWritten | fake-backends/data_store.py:66-132 | products are assigned in turn until the first whose category the enum lacks, which raises; it and those after it are not assigned |
| Store.FixtureAsWritten | fake-backends/data_store.py:46-132 | as written, a fixture that does not raise is the intended one; one that raises has appended the customer and no orders |
| Store.FixtureAsWrittenRaises | fake-backends/data_store.py:94-108 | as written, building the store raises, leaving the customer, the first two products and no orders, not the intended initial state |
| Store.DemoAssignedAsWritten | fake-backends/data_store.py:66-98 | as written, exactly the first two products are assigned before the lookup raises |
| Store.GenerateId | fake-backends/data_store.py:505-507 | a generated id is the prefix, a dash and eight upper-case hexadecimal digits |
| Store.FindOrder | fake-backends/routers/commerce.py:87 | the order found has the id and is the first such in the list; nothing is found exactly when no order has it |
| Store.FindCustomer | fake-backends/routers/commerce.py:193 | the customer found has the id and is the first such in the list; nothing is found exactly when no customer has it |
| Store.DataStore.constructor | fake-backends/data_store.py:13-26 | a new store is in the initial state and satisfies the invariant |
| Store.DataStore.Reset | fake-backends/data_store.py:28-44 | after a reset the store is in the initial state whatever it held, so two resets equal one |
| Store.DataStore.Clear | fake-backends/data_store.py:31-41 | all eleven collections are empty |
| Store.DataStore.InitializeDemoData | fake-backends/data_store.py:46-504 | customer and orders are appended, products assigned by sku, the other collections untouched |
| Store.DataStore.InitializeDemoDataAsWritten | fake-backends/data_store.py:46-98 | the store changes as the fixture as written does, and the method reports that it raised |
| Store.DataStore.AddDemoCustomers | fake-backends/data_store.py:50-64 | the fixture customer is appended and nothing else changes |
| Store.DataStore.AddDemoProducts | fake-backends/data_store.py:66-132 | the five products are assigned by sku and nothing else changes |
| Store.DataStore.AddDemoOrders | fake-backends/data_store.py:134-504 | the eleven orders are appended and nothing else changes |
| Commerce.ListRecentOrders | fake-backends/routers/commerce.py:19-35 | a limit outside 1..50 is refused with 422; otherwise only the customer's own orders, each at most as often as stored, newest first, min(limit, matches) of them |
| Commerce.ListRecentOrdersNewest | fake-backends/routers/commerce.py:31-32 | an order of the customer cut off by the limit is no newer than any order kept |
| Commerce.ListRecentOrdersStable | fake-backends/routers/commerce.py:31 | for every limit, the orders kept of any one date are the first of the customer's orders of that date, in store order |
| Commerce.StripAll | fake-backends/routers/commerce.py:64 | every tag is stripped, one for one |
| Commerce.SearchFilter | fake-backends/routers/commerce.py:46-68 | a product is kept exactly when it passes every given filter: query anywhere in name, description or a tag ignoring case, exact category, one of the listed tags |
| Commerce.SearchProducts | fake-backends/routers/commerce.py:38-74 | the result holds exactly the selected products, dearest first |
| Commerce.SearchProductsCounts | fake-backends/routers/commerce.py:46-71 | a selected product occurs as often as in the catalogue, any other never: the result permutes the selection |
| Commerce.SearchProductsUnfiltered | fake-backends/routers/commerce.py:46-71 | with no filter given the whole catalogue comes back, reordered |
| Commerce.SearchProductsStable | fake-backends/routers/commerce.py:71 | products of the same price keep their catalogue order |
| Commerce.RmaOutcome | fake-backends/routers/commerce.py:87-103 | 404 exactly when no order has the id, 400 exactly when the first such order lacks the sku; otherwise an approved RMA |
| Commerce.CreateRma | fake-backends/routers/commerce.py:77-108 | the answer is the outcome above; one RMA is appended on success and nothing else changes |
| Commerce.CreateCart | fake-backends/routers/commerce.py:111-124 | a new empty cart under its generated id is stored; nothing else changes; the invariant is kept |
| Commerce.LineIndex | fake-backends/routers/commerce.py:144 | the first line with the sku, or none exactly when no line has it |
| Commerce.AddedToCart | fake-backends/routers/commerce.py:143-153 | an existing line for the requested sku grows by the quantity and no line is added; otherwise one line for that sku with the product's name and price is appended; the subtotal grows by quantity times unit price; one line per sku is kept |
| Commerce.AddCartItemOutcome | fake-backends/routers/commerce.py:127-155 | 404 for a missing cart, then 404 for a missing product; otherwise the merged cart, an omitted quantity being 1 |
| Commerce.AddCartItem | fake-backends/routers/commerce.py:127-155 | the answer is the outcome above, with an omitted quantity taken as 1, and the stored cart becomes the answer, since it is changed in place |
| Commerce.WithStoreCredit | fake-backends/routers/commerce.py:173 | the credit applied is min(amount, subtotal); nothing else in the cart changes |
| Commerce.StoreCreditOverwrites | fake-backends/routers/commerce.py:173 | applying credit twice is the same as applying the second amount only |
| Commerce.StoreCreditOutcome | fake-backends/routers/commerce.py:165-175 | 404 for a missing cart, 400 for an amount of 0 or less; otherwise the capped credit |
| Commerce.ApplyStoreCredit | fake-backends/routers/commerce.py:158-175 | the answer is the outcome above and the stored cart becomes the answer |
| Commerce.Tax | fake-backends/routers/commerce.py:199 | the tax is the whole number of cents nearest to 8% of the subtotal |
| Commerce.Shipping | fake-backends/routers/commerce.py:200 | shipping is free exactly above $50, otherwise $8.99 |
| Commerce.OrderLine | fake-backends/routers/commerce.py:210-216 | an order line copies the cart line, with total quantity times unit price |
| Commerce.OrderLines | fake-backends/routers/commerce.py:209-217 | the cart's lines are copied one for one, in order |
| Commerce.OrderLinesTotal | fake-backends/routers/commerce.py:198-215 | the order's line totals add up to the cart subtotal |
| Commerce.OrderFromCart | fake-backends/routers/commerce.py:198-223 | the order is PROCESSING, shipped to the customer's address, and total = subtotal + tax + shipping - credit |
| Commerce.PlaceOrderOutcome | fake-backends/routers/commerce.py:185-223 | 404 for a missing cart, 400 for an empty one, 404 for a missing customer, and success exactly otherwise, with the order built from the cart |
| Commerce.PlaceOrder | fake-backends/routers/commerce.py:178-230 | the answer is the outcome above; on success the order is appended and the cart deleted, and nothing else changes |
| Erp.CheckReturnEligibility | fake-backends/routers/erp.py:9-42 | 404 for an unknown order before 404 for a sku not in it, and an answer exactly otherwise; eligible exactly within 30 days, with 30 - days left then and 0 otherwise, no restocking fee |
| Erp.DaysRemainingBounds | fake-backends/routers/erp.py:29-41 | the days remaining are never negative, and at most 30 for a delivery in the past |
| Erp.ExpiredReasonNamesDays | fake-backends/routers/erp.py:39 | the expiry reason names the number of days: different days give different reasons |
| Erp.GetSkuInfo | fake-backends/routers/erp.py:45-60 | 404 for an unknown sku; clearance and discontinued flags follow the lifecycle and are never both set |
| Erp.CheckAvailability | fake-backends/routers/erp.py:63-79 | 404 for an unknown sku; availability and quantity from the product; warehouse CA-SAN-01 exactly when in stock, else OUT_OF_STOCK |
| Policy.EvaluateReturnPolicy | fake-backends/routers/policy.py:9-56 | 404 before any rule; approved exactly within 30 days or when any rule matches; the policy, exception, refund type and notes that the later rules overwrite; no restocking fee |
| Wms.CheckFulfillmentEligibility | fake-backends/routers/wms.py:9-44 | 404 for an unknown sku; not eligible exactly when out of stock, with the N/A values; otherwise SAME_DAY in six hours exactly for postal codes starting 94 or 95, else STANDARD in three days, from CA-SAN-01 |
| Wms.ExpectedReturnOutcome | fake-backends/routers/wms.py:57-69 | 404 exactly for an unknown customer; otherwise an expected return carrying the override reason as given |
| Wms.CreateExpectedReturn | fake-backends/routers/wms.py:47-72 | the answer is the outcome above; one record is appended on success and nothing else changes |
| Wms.Carrier | fake-backends/routers/wms.py:88-96 | OnTrac exactly for SAME_DAY (six hours), FedEx exactly for OVERNIGHT (one day), USPS for anything else (three days) |
| Wms.ShipmentOutcome | fake-backends/routers/wms.py:75-105 | 404 exactly for an unknown order; otherwise a released shipment by the method's carrier, an omitted method being STANDARD (USPS, three days) |
| Wms.MarkShipped | fake-backends/routers/wms.py:83-110 | the first order with the id becomes shipped and every other order stays as it was |
| Wms.ReleaseShipment | fake-backends/routers/wms.py:75-112 | the answer is the outcome above, with the method defaulting to STANDARD; on success one shipment is appended and that order marked shipped; the invariant is kept |
| Payments.PaymentGuard | fake-backends/routers/payments.py:18-23 | 404 exactly for an unknown customer, checked before 400 for an amount of 0 or less |
| Payments.StoreCreditOutcome | fake-backends/routers/payments.py:18-32 | the guard's error, or an unapplied credit with the given customer, amount and reason |
| Payments.CreateStoreCredit | fake-backends/routers/payments.py:9-35 | the answer is the outcome above; exactly one credit is appended on success and nothing else changes |
| Payments.ChargeOutcome | fake-backends/routers/payments.py:42-61 | the guard's error, or a completed charge whose payment method defaults to credit_card |
| Payments.CreateCharge | fake-backends/routers/payments.py:38-64 | the answer is the outcome above; exactly one charge is appended on success and nothing else changes |
| ReturnsProvider.FindRma | fake-backends/routers/returns_provider.py:23 | the RMA found has the id and is the first such in the list; nothing is found exactly when no RMA has it |
| ReturnsProvider.LabelOutcome | fake-backends/routers/returns_provider.py:13-34 | 404 for a missing customer before 404 for a missing RMA; otherwise a label by the given carrier (default USPS) expiring 30 days on |
| ReturnsProvider.GenerateReturnLabel | fake-backends/routers/returns_provider.py:9-37 | the answer is the outcome above; exactly one label is appended on success and nothing else changes |
| Notifications.EmailOutcome | fake-backends/routers/notifications.py:19-29 | 400 exactly for an empty address or one without '@'; otherwise the email with to, subject and body unchanged and missing attachments as [] |
| Notifications.SendEmail | fake-backends/routers/notifications.py:10-32 | the answer is the outcome above; one email is appended on success, and it is the record returned |
| Worker.GetEnv | fake-backends/camunda_worker.py:15-17 | the variable when set and non-empty, else the default |
| Worker.SplitAddress | fake-backends/camunda_worker.py:36-40 | an address splits at its first ':'; without one the port is "26500" |
| Worker.SplitAddressJoin | fake-backends/camunda_worker.py:37-38 | a host without ':' and any port are recovered from "host:port" |
| Worker.CreateChannel | fake-backends/camunda_worker.py:20-42 | the SaaS channel exactly when a client id is set, with secret and cluster defaulting to "", region to bru-2 and the authorization server to the Camunda login URL; otherwise the split address, with a non-numeric port raising ValueError |
| Worker.DefaultChannel | fake-backends/camunda_worker.py:36-42 | with no settings the worker connects to localhost:26500 |
| Worker.BuildUrlJoinsOnce | fake-backends/camunda_worker.py:61-62 | however many slashes end the base and start the path, they are joined by exactly one '/' |
| Worker.FirstValue | fake-backends/camunda_worker.py:65-69 | the value of the first key, in argument order, present with a value other than None or ""; the default when none qualifies |
| Worker.FirstValueNone | fake-backends/camunda_worker.py:65-69 | with default None the result is None exactly when no key qualifies, and it is never "" |
| Worker.Get | fake-backends/camunda_worker.py:65-69 | the loop with early return computes that value |
| Worker.IntOf | fake-backends/camunda_worker.py:111 | Python `int()`: integers and booleans convert, strings convert when they read as an integer and raise ValueError otherwise, other values raise TypeError |
| Worker.IntOfDecimal | fake-backends/camunda_worker.py:111 | a quantity given as the text of a number converts back to that number |
| Worker.CallTo | fake-backends/camunda_worker.py:61-62 | a string base gives the call with the verb, the parameters and the URL `_build_url` joins from base and path; any other base raises AttributeError |
| Worker.SearchParamsExact | fake-backends/camunda_worker.py:84-88 | the search parameters are exactly the qualifying keys, in order, each with its value |
| Worker.NoneIfEmpty | fake-backends/camunda_worker.py:90 | empty parameters are sent as none at all |
| Worker.ListOrdersCall | fake-backends/camunda_worker.py:76-82 | refused exactly without a customer id; otherwise a GET of customers/{id}/orders under the base with limit default 5 |
| Worker.ProductSearchCall | fake-backends/camunda_worker.py:83-90 | never refused; a GET of catalog/products under the base with only the non-empty search variables, or none |
| Worker.CreateRmaCall | fake-backends/camunda_worker.py:91-101 | refused exactly unless order id, customer id, sku and reason are all truthy; otherwise a POST to rmas under the base with those four as order_id, customer_id, sku and reason |
| Worker.CreateCartCall | fake-backends/camunda_worker.py:102-107 | refused exactly without a customer id; otherwise a POST to carts under the base with customer_id |
| Worker.AddCartItemCall | fake-backends/camunda_worker.py:108-115 | the quantity (default 1) is converted before cart id and sku are checked; with both, a POST to carts/{id}/items under the base with sku and the converted quantity |
| Worker.ApplyStoreCreditCall | fake-backends/camunda_worker.py:116-122 | refused exactly when `_get` finds no cart id or amount (absent, None or ""); a 0, false or empty-list amount passes; otherwise a POST to carts/{id}/discounts/store-credit with the amount |
| Worker.PlaceOrderCall | fake-backends/camunda_worker.py:123-129 | refused exactly without a cart id; otherwise a POST to orders with cart_id and the payment method, default credit_card |
| Worker.PlanCall | fake-backends/camunda_worker.py:72-131 | each of the seven operations is validated and built by its own call above over the API base; any other operation raises "Unsupported operation: ..." |
| Worker.ProductSearchParams | fake-backends/camunda_worker.py:84-90 | the search sends exactly the non-empty ones of category, wifiMin and tags, and no parameters when all are empty |
| Worker.Dispatch | fake-backends/camunda_worker.py:72-133 | a refused plan is passed on; a planned call gives a result exactly when the request answers, and a failing request's exception is passed on; a result has exactly the keys status and body, from the response |
| Worker.BuildSearchParams | fake-backends/camunda_worker.py:84-88 | the parameter loop builds the search parameters |
| Worker.HandleOperation | fake-backends/camunda_worker.py:72-133 | the method computes the dispatch above |
| Worker.ConnectorOutcome | fake-backends/camunda_worker.py:136-147 | refused without an operation; a result exactly when the operation succeeds and the result name is hashable, stored under the result variable (default "magentoResponse"); an unhashable name raises TypeError; an operation's failure is passed on |
| Worker.DefaultResultName | fake-backends/camunda_worker.py:146 | without a resultVariable the result is stored under "magentoResponse" |
| Worker.MagentoConnector | fake-backends/camunda_worker.py:136-147 | the method computes the outcome above |
| Inbound.Route | fake-backends/routers/inbound.py:252-293 | the five forwarded paths, each to the same path under /inbound; only /twilio converts nothing |
| Inbound.FullUrl | fake-backends/routers/inbound.py:120 | "?" and the query are added exactly when the query is non-empty |
| Inbound.FullUrlQuery | fake-backends/routers/inbound.py:120 | the query can be read back from the full URL when the target has no '?' |
| Inbound.IsXmlContent | fake-backends/routers/inbound.py:22-26 | false for no or an empty type; otherwise true exactly when the lower-cased type contains "xml" |
| Inbound.XmlContentIgnoresCase | fake-backends/routers/inbound.py:25-26 | the XML test does not depend on letter case |
| Inbound.RequestConversion | fake-backends/routers/inbound.py:84-96 | conversion only for a converting route and a non-empty body; XML before form-encoded |
| Inbound.LastValue | fake-backends/routers/inbound.py:76-81 | the value of the last header with the name: no later header has it; none exactly when no header has it |
| Inbound.ForwardedHeadersExact | fake-backends/routers/inbound.py:76-81 | the forwarded headers hold no hop-by-hop name in any case; every other name keeps its original spelling and last value |
| Inbound.ForwardHeaders | fake-backends/routers/inbound.py:76-81 | the header loop builds those headers |
| Inbound.DropBodyHeaders | fake-backends/routers/inbound.py:101-103 | exactly the headers that are not content-type or content-length, in any case, remain |
| Inbound.JsonHeaders | fake-backends/routers/inbound.py:99-104 | after a conversion, the only content-type or content-length header left is "Content-Type: application/json" |
| Inbound.SanitizeHeaders | fake-backends/routers/inbound.py:106-113 | the same names in the same order; authorization, cookie and set-cookie values in any case become "<redacted>", the rest unchanged |
| Inbound.PreviewBytes | fake-backends/routers/inbound.py:115-118 | empty for an empty body; otherwise the first min(length, limit) bytes |
| Inbound.ResponseHeaders | fake-backends/routers/inbound.py:188-203 | exactly the upstream headers whose name is neither hop-by-hop nor content-type; one header is kept exactly when its name is |
| Inbound.ResponseHeadersInOrder | fake-backends/routers/inbound.py:188-203 | the headers kept keep their upstream order: a first part's come before the rest's |
| Inbound.ResponseHeadersCounts | fake-backends/routers/inbound.py:188-203 | a kept header occurs as often as upstream, a dropped one never |
| Inbound.ResponseConversion | fake-backends/routers/inbound.py:218-248 | the response is converted exactly for a converting route, a JSON type and a non-empty body; the media type is then application/xml |
| Inbound.NormalizedExpands | fake-backends/routers/inbound.py:92-94 | a single value becomes a scalar, several stay a list, and the values can be read back |
| Inbound.NormalizeForm | fake-backends/routers/inbound.py:92-94 | every parsed field, in order, with its normalised value |
| ConnectorMock.VariableText | ecommerce-agent/src/test/java/io/berndruecker/demo/HttpJsonConnectorMock.java:88-90 | null exactly for an absent or null variable; a string as itself |
| ConnectorMock.HandleOutcome | ecommerce-agent/src/test/java/io/berndruecker/demo/HttpJsonConnectorMock.java:52-75 | fails with the no-more-calls assertion when no stub is left; a NullPointerException for a null method or URL; the "Unexpected HTTP method" assertion exactly for a method mismatch and the "Unexpected URL" assertion, naming the fragment and the lower-cased URL, exactly for a URL mismatch; completes exactly when the upper-cased method equals the stub's and the lower-cased URL contains its pattern; the result is httpResult plus the stub's variables, which win on a clash |
| ConnectorMock.MatchingCallAnswered | ecommerce-agent/src/test/java/io/berndruecker/demo/HttpJsonConnectorMock.java:57-75 | a matching call gets an httpResult of exactly three fields: the stub's status, its body (null when unset) and reason "OK" |
| ConnectorMock.ResponseDefinitionBuilder.constructor | ecommerce-agent/src/test/java/io/berndruecker/demo/HttpJsonConnectorMock.java:106-109 | a new builder has status 0, no body and no variables |
| ConnectorMock.ResponseDefinitionBuilder.WithStatus | ecommerce-agent/src/test/java/io/berndruecker/demo/HttpJsonConnectorMock.java:111-114 | sets the status and returns the same builder |
| ConnectorMock.ResponseDefinitionBuilder.WithBody | ecommerce-agent/src/test/java/io/berndruecker/demo/HttpJsonConnectorMock.java:116-119 | sets the body and returns the same builder |
| ConnectorMock.ResponseDefinitionBuilder.WithResultVariable | ecommerce-agent/src/test/java/io/berndruecker/demo/HttpJsonConnectorMock.java:121-124 | puts one variable and returns the same builder |
| ConnectorMock.StubMapping.constructor | ecommerce-agent/src/test/java/io/berndruecker/demo/HttpJsonConnectorMock.java:132-136 | the mapping holds the method, the pattern and the builder itself |
| ConnectorMock.RequestPatternBuilder.constructor | ecommerce-agent/src/test/java/io/berndruecker/demo/HttpJsonConnectorMock.java:96-99 | the pattern holds the method and URL fragment |
| ConnectorMock.RequestPatternBuilder.WillReturn | ecommerce-agent/src/test/java/io/berndruecker/demo/HttpJsonConnectorMock.java:101-103 | a fresh mapping of the pattern to the builder |
| ConnectorMock.Get | ecommerce-agent/src/test/java/io/berndruecker/demo/HttpJsonConnectorMock.java:34-36 | a GET pattern with the lower-cased fragment |
| ConnectorMock.Post | ecommerce-agent/src/test/java/io/berndruecker/demo/HttpJsonConnectorMock.java:38-40 | a POST pattern with the lower-cased fragment |
| ConnectorMock.AResponse | ecommerce-agent/src/test/java/io/berndruecker/demo/HttpJsonConnectorMock.java:42-44 | a fresh, empty builder |
| ConnectorMock.HttpJsonConnectorMock.constructor | ecommerce-agent/src/test/java/io/berndruecker/demo/HttpJsonConnectorMock.java:24 | the queue starts empty |
| ConnectorMock.HttpJsonConnectorMock.StubFor | ecommerce-agent/src/test/java/io/berndruecker/demo/HttpJsonConnectorMock.java:30-32 | the mapping joins the back of the queue |
| ConnectorMock.HttpJsonConnectorMock.Handle | ecommerce-agent/src/test/java/io/berndruecker/demo/HttpJsonConnectorMock.java:51-82 | the front stub leaves the queue before anything is checked, even when the call then fails; the outcome is the one above for what its builder holds now |
| ConnectorMock.HttpJsonConnectorMock.VerifyNoMoreCalls | ecommerce-agent/src/test/java/io/berndruecker/demo/HttpJsonConnectorMock.java:84-86 | passes exactly when the queue is empty |
| ConnectorMock.FifoOrder | ecommerce-agent/src/test/java/io/berndruecker/demo/HttpJsonConnectorMock.java:24-53 | two stubs registered in turn answer two calls in the same order |

## Findings

| source | as written | input that shows it | evidently intended | confidence | as-written member | corrected member |
|---|---|---|---|---|---|---|
| fake-backends/data_store.py:98 | the third fixture product is filed under `ProductCategory.NETWORKING`, which the enum at fake-backends/models.py:16-20 does not declare, so the lookup raises AttributeError inside `DataStore()` and `reset()` | `DataStore()` at any time (fake-backends/data_store.py:510) | a `networking` category, with all five products and eleven orders in the store | not executed; high | Store.FixtureAsWrittenRaises | Store.FixtureOverEmpty |

## Left out

- The FEEL expression evaluator (`_evaluate_result_expression`, `_evaluate_field_access`) is not part of this model. The worker file does not define it.
- The HTTP call `_request` (fake-backends/camunda_worker.py:48-58) is a function parameter of the worker. Its response decoding and its error wrapping are network I/O.
- The httpx forward of the proxy and its 502/500 answers (fake-backends/routers/inbound.py:133-184) are network I/O.
- Zeebe channel creation and worker startup (fake-backends/camunda_worker.py:150-164) are I/O. The cloud channel is modelled only as the values passed to it.
- XML to JSON and JSON to XML conversion (xmltodict), `parse_qs`, `json.dumps` and UTF-8 decoding of bodies and previews are left out. They are foreign codecs. Only the decisions around them are modelled.
- The static hold-loop TwiML route (fake-backends/routers/inbound.py:259-299) serves a constant document and forwards nothing.
- All logging is left out. That includes `_log`, which calls a `log_operation` that the `DataStore` class does not define; it is treated as a no-op.
- `strftime` formatting is left out: a delivery estimate is kept as the timestamp it formats.
- Commerce.Tax: float dollars are integer cents, so float rounding artefacts are not modelled.
- Text handling is ASCII only: `lower` and `upper` change only ASCII letters, and `strip` removes only ASCII whitespace (space, tab to return, and the separators 0x1C to 0x1F); non-ASCII whitespace such as U+0085 or U+00A0 is kept.
- Values.Value has no floating-point numbers, so a job variable such as an amount of 12.5 is not modelled, nor `int()` truncating a float quantity (fake-backends/camunda_worker.py:111).
- Worker.IntOf: Python `int()` also accepts underscores between digits and non-ASCII digits and whitespace; the model accepts ASCII whitespace around an optional sign and ASCII digits only.
- Python `repr` escaping of quotes inside strings, and Java `toString` of maps (whose HashMap order is unspecified), are left out.
- JUnit's message formatting for failed `assertEquals` is left out. A failure carries the message the test passes.
- ConnectorMock.HttpJsonConnectorMock.Handle: the job completion through `JobClient` is external; the result variables are returned instead.
- FastAPI/Pydantic request validation is left out, beyond the `limit` bounds of `list_recent_orders`; so is response serialisation.
- fake-backends/main.py, fake-backends/routers/admin.py and fake-backends/mcp_server.py are application wiring and thin HTTP wrappers.
- Store.DataStore.Reset: `.clear()` keeps each collection object and only empties it. The model reassigns sequence-valued fields, so object identity and aliasing of the collections are not captured.
- Commerce.AddCartItem: the in-place update of a cart object is modelled by storing the new cart value under its id. Other references to the same Python object are not modelled.
- The fixture's `datetime.now()` calls are one `now` parameter, though Python reads the clock once per call.
- Inbound.ResponseHeaders: the final `dict(resp_headers)` keeps only the last value of a repeated name. The model returns the filtered list.
- Inbound.JsonHeaders: only which headers remain is stated, not their order.
