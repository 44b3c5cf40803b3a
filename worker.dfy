/** The Zeebe job worker (fake-backends/camunda_worker.py): it reads environment
    settings, picks the job variables it needs, validates them per operation and
    forwards one HTTP call to the commerce simulator. The environment is a map
    parameter and the HTTP call a function parameter `request`, so that what the
    worker decides is separated from what the network answers. */
module Worker {
  import opened Results
  import opened Text
  import opened Values
  import opened Lists
  import OrderedDict

  type Env = map<string, string>

  /** Job variables, in the order the job carries them. */
  type Vars = seq<(string, Value)>

  /** The exceptions the worker can raise: its own connector error, and the Python
      errors that `int()`, `str.rstrip` on a non-string and an unhashable dict key
      raise. */
  datatype Failure = ConnectorError(message: string) | ValueError | TypeError | AttributeError

  /** A Python computation either returns a value or raises. */
  datatype Outcome<+T> = Done(value: T) | Raised(failure: Failure)

  /** One HTTP request the worker makes: method, absolute URL and query parameters. */
  datatype Call = Call(verb: string, url: string, params: Option<Vars>)

  const DefaultApiBase := "http://localhost:8100/commerce"
  const DefaultAddress := "localhost:26500"
  const DefaultPort := "26500"
  const DefaultRegion := "bru-2"
  const DefaultAuthServer := "https://login.cloud.camunda.io/oauth/token"
  const DefaultResultVariable := "magentoResponse"

  // ---------------------------------------------------------------------------
  // Environment and channel settings

  /** `_get_env`: the variable when it is set to something non-empty, else the default. */
  function GetEnv(env: Env, name: string, default: Option<string>): (r: Option<string>)
    ensures name in env && env[name] != "" ==> r == Some(env[name])
    ensures name !in env || env[name] == "" ==> r == default
    ensures r == Some("") ==> default == Some("")
  {
    if name in env && env[name] != "" then Some(env[name]) else default
  }

  /** The self-managed address split: at the first ':' into host and port, or the
      whole address as host with port "26500" when there is no ':'. */
  function SplitAddress(address: string): (r: (string, string))
    ensures ':' in address ==> r.0 + ":" + r.1 == address && ':' !in r.0
    ensures ':' !in address ==> r == (address, DefaultPort)
  {
    if ':' in address then
      var i := IndexOfChar(address, ':');
      assert address == address[..i] + ":" + address[i + 1..];
      (address[..i], address[i + 1..])
    else (address, DefaultPort)
  }

  /** Host and port of an address whose host has no ':' are found again by the split. */
  lemma SplitAddressJoin(host: string, port: string)
    requires ':' !in host
    ensures SplitAddress(host + ":" + port) == (host, port)
  {
    var a := host + ":" + port;
    assert a[|host|] == ':';
    IndexOfCharAfter(host, ':', port);
    assert a[..|host|] == host;
    assert a[|host| + 1..] == port;
  }

  datatype Channel =
    | CloudChannel(clientId: string, clientSecret: string, clusterId: string, region: string, authServer: string)
    | InsecureChannel(hostname: string, port: int)

  /** `_create_channel`: the SaaS channel whenever a client id is set, with empty
      defaults for secret and cluster; otherwise an insecure channel to the split
      address, whose port `int()` must accept. */
  function CreateChannel(env: Env): (r: Outcome<Channel>)
    ensures (r.Done? && r.value.CloudChannel?) <==> GetEnv(env, "ZEEBE_CLIENT_ID", None).Some?
    ensures r.Done? && r.value.CloudChannel? ==>
      && r.value.clientId == env["ZEEBE_CLIENT_ID"]
      && r.value.region == GetEnv(env, "ZEEBE_REGION", Some(DefaultRegion)).value
      && r.value.clusterId == GetEnv(env, "ZEEBE_ADDRESS", Some("")).value
      && r.value.clientSecret == GetEnv(env, "ZEEBE_CLIENT_SECRET", Some("")).value
      && r.value.authServer == GetEnv(env, "ZEEBE_AUTHORIZATION_SERVER_URL", Some(DefaultAuthServer)).value
    ensures GetEnv(env, "ZEEBE_CLIENT_ID", None).None? ==>
      var hostPort := SplitAddress(GetEnv(env, "ZEEBE_ADDRESS", Some(DefaultAddress)).value);
      && (r.Raised? <==> ParseInt(hostPort.1).None?)
      && (r.Raised? ==> r.failure == ValueError)
      && (r.Done? ==> r.value == InsecureChannel(hostPort.0, ParseInt(hostPort.1).value))
  {
    match GetEnv(env, "ZEEBE_CLIENT_ID", None)
    case Some(clientId) =>
      Done(CloudChannel(clientId,
                        GetEnv(env, "ZEEBE_CLIENT_SECRET", Some("")).value,
                        GetEnv(env, "ZEEBE_ADDRESS", Some("")).value,
                        GetEnv(env, "ZEEBE_REGION", Some(DefaultRegion)).value,
                        GetEnv(env, "ZEEBE_AUTHORIZATION_SERVER_URL", Some(DefaultAuthServer)).value))
    case None =>
      var hostPort := SplitAddress(GetEnv(env, "ZEEBE_ADDRESS", Some(DefaultAddress)).value);
      match ParseInt(hostPort.1)
      case Some(port) => Done(InsecureChannel(hostPort.0, port))
      case None => Raised(ValueError)
  }

  /** With no settings at all the worker talks to localhost:26500. */
  lemma DefaultChannel()
    ensures CreateChannel(map[]) == Done(InsecureChannel("localhost", 26500))
  {
    var env: Env := map[];
    assert GetEnv(env, "ZEEBE_CLIENT_ID", None) == None;
    assert GetEnv(env, "ZEEBE_ADDRESS", Some(DefaultAddress)).value == "localhost" + ":" + "26500";
    SplitAddressJoin("localhost", "26500");
    DefaultPortNumber();
  }

  lemma DefaultPortNumber()
    ensures ParseInt(DefaultPort) == Some(26500)
  {
    assert NatToString(26) == "26" by { assert NatToString(2) == "2"; }
    assert NatToString(265) == "265";
    assert NatToString(2650) == "2650";
    assert NatToString(26500) == "26500";
    ParseIntOfIntToString(26500);
  }

  // ---------------------------------------------------------------------------
  // URLs

  predicate IsSlash(c: char) { c == '/' }

  predicate AllSlashes(s: string) {
    forall i :: 0 <= i < |s| ==> s[i] == '/'
  }

  /** `_build_url`: the base without its trailing slashes, one '/', and the path
      without its leading slashes. */
  function BuildUrl(base: string, path: string): string {
    TrimEnd(base, IsSlash) + "/" + TrimStart(path, IsSlash)
  }

  /** However many slashes end the base and start the path, the two are joined by
      exactly one. Every base and path can be written this way. */
  lemma BuildUrlJoinsOnce(base: string, trailing: string, leading: string, path: string)
    requires AllSlashes(trailing) && AllSlashes(leading)
    requires base == [] || base[|base| - 1] != '/'
    requires path == [] || path[0] != '/'
    ensures BuildUrl(base + trailing, leading + path) == base + "/" + path
  {
    TrimEndSlashes(base, trailing);
    TrimStartSlashes(leading, path);
  }

  lemma {:induction false} TrimEndSlashes(base: string, trailing: string)
    requires AllSlashes(trailing)
    requires base == [] || base[|base| - 1] != '/'
    ensures TrimEnd(base + trailing, IsSlash) == base
    decreases |trailing|
  {
    if trailing == [] {
      assert base + trailing == base;
    } else {
      var shorter := trailing[..|trailing| - 1];
      assert (base + trailing)[..|base + trailing| - 1] == base + shorter;
      TrimEndSlashes(base, shorter);
    }
  }

  lemma {:induction false} TrimStartSlashes(leading: string, path: string)
    requires AllSlashes(leading)
    requires path == [] || path[0] != '/'
    ensures TrimStart(leading + path, IsSlash) == path
  {
    if leading == [] {
      assert leading + path == path;
    } else {
      assert (leading + path)[1..] == leading[1..] + path;
      TrimStartSlashes(leading[1..], path);
    }
  }

  // ---------------------------------------------------------------------------
  // Reading job variables

  /** A key `_get` accepts: present with a value other than None and "". */
  predicate Qualifies(vars: Vars, key: string) {
    var v := OrderedDict.Get(vars, key);
    v.Some? && v.value != Null && v.value != Str("")
  }

  function QualifiesIn(vars: Vars): string -> bool {
    (k: string) => Qualifies(vars, k)
  }

  /** What `_get(vars, *keys, default=...)` returns: the value of the first key, in
      argument order, that qualifies, and the default when none does. */
  function FirstValue(vars: Vars, keys: seq<string>, default: Value): (r: Value)
    ensures match FirstIndex(keys, QualifiesIn(vars))
      case Some(i) => r == OrderedDict.Get(vars, keys[i]).value
      case None => r == default
  {
    if keys == [] then default
    else if Qualifies(vars, keys[0]) then OrderedDict.Get(vars, keys[0]).value
    else FirstValue(vars, keys[1..], default)
  }

  /** A value `_get` finds is never None or "", so with the default None the result is
      None exactly when no key qualifies. */
  lemma {:induction false} FirstValueNone(vars: Vars, keys: seq<string>)
    ensures FirstValue(vars, keys, Null) == Null <==> forall k :: k in keys ==> !Qualifies(vars, k)
    ensures FirstValue(vars, keys, Null) != Str("")
  {
    if keys != [] {
      FirstValueNone(vars, keys[1..]);
      assert keys == [keys[0]] + keys[1..];
    }
  }

  /** `_get`: the loop that returns at the first qualifying key. */
  method Get(vars: Vars, keys: seq<string>, default: Value) returns (r: Value)
    ensures r == FirstValue(vars, keys, default)
  {
    for n := 0 to |keys|
      invariant FirstValue(vars, keys, default) == FirstValue(vars, keys[n..], default)
    {
      assert keys[n..][1..] == keys[n + 1..];
      var v := OrderedDict.Get(vars, keys[n]);
      if v.Some? && v.value != Null && v.value != Str("") {
        return v.value;
      }
    }
    assert keys[|keys|..] == [];
    r := default;
  }

  /** Python's `int(value)` on a job variable. */
  function IntOf(v: Value): (r: Outcome<int>)
    ensures v.Int? ==> r == Done(v.i)
    ensures v.Bool? ==> r == Done(if v.b then 1 else 0)
    ensures v.Str? ==> (r.Done? <==> ParseInt(v.s).Some?) && (r.Done? ==> r.value == ParseInt(v.s).value)
    ensures r.Raised? ==> r.failure == (if v.Str? then ValueError else TypeError)
    ensures v.Null? || v.List? || v.Object? ==> r == Raised(TypeError)
  {
    match v
    case Int(i) => Done(i)
    case Bool(b) => Done(if b then 1 else 0)
    case Str(s) => (match ParseInt(s) case Some(n) => Done(n) case None => Raised(ValueError))
    case _ => Raised(TypeError)
  }

  /** A quantity given as the text of a number converts to that number. */
  lemma IntOfDecimal(n: int)
    ensures IntOf(Str(IntToString(n))) == Done(n)
  {
    ParseIntOfIntToString(n);
  }

  // ---------------------------------------------------------------------------
  // Operations

  const CustomerKeys := ["customerId", "customer_id"]
  const OrderKeys := ["orderId", "order_id"]
  const CartKeys := ["cartId", "cart_id"]
  const SearchKeys := ["category", "wifiMin", "tags"]

  const ListOrdersMissing := "customerId is required for listOrders"
  const CreateRmaMissing := "orderId, customerId, sku, and reason are required for createRma"
  const CreateCartMissing := "customerId is required for createCart"
  const AddCartItemMissing := "cartId and sku are required for addCartItem"
  const ApplyStoreCreditMissing := "cartId and amount are required for applyStoreCredit"
  const PlaceOrderMissing := "cartId is required for placeOrder"

  predicate KnownOperation(operation: Value) {
    operation in [Str("listOrders"), Str("productSearch"), Str("createRma"), Str("createCart"),
                  Str("addCartItem"), Str("applyStoreCredit"), Str("placeOrder")]
  }

  /** The API base: the `apiBaseUrl` variable, else MAGENTO_API_BASE, else the default. */
  function ApiBase(vars: Vars, env: Env): Value {
    FirstValue(vars, ["apiBaseUrl"], Str(GetEnv(env, "MAGENTO_API_BASE", Some(DefaultApiBase)).value))
  }

  /** A call to `path` under `base`; `_build_url` calls `rstrip` on the base, which
      raises AttributeError when the base is not a string. */
  function CallTo(verb: string, base: Value, path: string, params: Option<Vars>): (r: Outcome<Call>)
    ensures r.Raised? <==> !base.Str?
    ensures r.Raised? ==> r.failure == AttributeError
    ensures base.Str? ==> r.Done? && r.value.verb == verb && r.value.params == params
    ensures base.Str? ==> r.value.url == BuildUrl(base.s, path)
  {
    if base.Str? then Done(Call(verb, BuildUrl(base.s, path), params)) else Raised(AttributeError)
  }

  /** The search parameters of `productSearch`, built key by key: an entry for each
      key whose `_get` is neither None nor "". */
  function SearchParams(vars: Vars, keys: seq<string>): Vars {
    if keys == [] then []
    else
      SearchParams(vars, keys[..|keys| - 1]) + SearchEntry(vars, keys[|keys| - 1])
  }

  /** The search parameters are exactly the qualifying keys, in the order given, each
      with its variable's value. */
  lemma SearchParamsExact(vars: Vars, keys: seq<string>)
    ensures OrderedDict.Keys(SearchParams(vars, keys)) == Filter(keys, QualifiesIn(vars))
    ensures forall i :: 0 <= i < |SearchParams(vars, keys)| ==>
      OrderedDict.Get(vars, SearchParams(vars, keys)[i].0) == Some(SearchParams(vars, keys)[i].1)
  {
    SearchParamsKeys(vars, keys);
    SearchParamsValues(vars, keys);
  }

  lemma {:induction false} SearchParamsKeys(vars: Vars, keys: seq<string>)
    ensures OrderedDict.Keys(SearchParams(vars, keys)) == Filter(keys, QualifiesIn(vars))
  {
    if keys != [] {
      var init := keys[..|keys| - 1];
      var last := keys[|keys| - 1];
      SearchParamsKeys(vars, init);
      SearchEntryExact(vars, last);
      assert keys == init + [last];
      FilterAppend(init, [last], QualifiesIn(vars));
      OrderedDict.KeysAppend(SearchParams(vars, init), SearchEntry(vars, last));
    }
  }

  lemma {:induction false} SearchParamsValues(vars: Vars, keys: seq<string>)
    ensures forall i :: 0 <= i < |SearchParams(vars, keys)| ==>
      OrderedDict.Get(vars, SearchParams(vars, keys)[i].0) == Some(SearchParams(vars, keys)[i].1)
  {
    if keys != [] {
      var rest: Vars := SearchParams(vars, keys[..|keys| - 1]);
      var entry: Vars := SearchEntry(vars, keys[|keys| - 1]);
      SearchParamsValues(vars, keys[..|keys| - 1]);
      SearchEntryExact(vars, keys[|keys| - 1]);
      var all: Vars := rest + entry;
      forall i | 0 <= i < |all|
        ensures OrderedDict.Get(vars, all[i].0) == Some(all[i].1)
      {
        if i < |rest| {
          assert all[i] == rest[i];
        } else {
          assert all[i] == entry[i - |rest|];
        }
      }
    }
  }

  /** The entry that one search key contributes. */
  function SearchEntry(vars: Vars, key: string): Vars {
    var value := FirstValue(vars, [key], Null);
    if value != Null && value != Str("") then [(key, value)] else []
  }

  lemma SearchEntryExact(vars: Vars, key: string)
    ensures OrderedDict.Keys(SearchEntry(vars, key)) == Filter([key], QualifiesIn(vars))
    ensures forall i :: 0 <= i < |SearchEntry(vars, key)| ==>
      OrderedDict.Get(vars, SearchEntry(vars, key)[i].0) == Some(SearchEntry(vars, key)[i].1)
  {
    FirstValueNone(vars, [key]);
    assert [key][0] == key;
    assert [key][1..] == [];
    if Qualifies(vars, key) {
      assert FirstIndex([key], QualifiesIn(vars)) == Some(0);
    }
  }

  /** `params or None`: an empty parameter dict is sent as no parameters. */
  function NoneIfEmpty(params: Vars): (r: Option<Vars>)
    ensures r.None? <==> params == []
    ensures r.Some? ==> r.value == params
  {
    if params == [] then None else Some(params)
  }

  /** `listOrders`: refused without a customer id; the limit defaults to 5. */
  function ListOrdersCall(vars: Vars, base: Value): (r: Outcome<Call>)
    ensures r == Raised(ConnectorError(ListOrdersMissing)) <==> !Truthy(FirstValue(vars, CustomerKeys, Null))
    ensures r.Done? ==> && base.Str? && r.value.verb == "GET"
                        && r.value.params == Some([("limit", FirstValue(vars, ["limit"], Int(5)))])
    ensures var customerId := FirstValue(vars, CustomerKeys, Null);
      Truthy(customerId) ==>
        r == CallTo("GET", base, "customers/" + StrOf(customerId) + "/orders", Some([("limit", FirstValue(vars, ["limit"], Int(5)))]))
  {
    var customerId := FirstValue(vars, CustomerKeys, Null);
    var limit := FirstValue(vars, ["limit"], Int(5));
    if !Truthy(customerId) then Raised(ConnectorError(ListOrdersMissing))
    else CallTo("GET", base, "customers/" + StrOf(customerId) + "/orders", Some([("limit", limit)]))
  }

  /** `productSearch`: never refused; the parameters are the non-empty search
      variables, or none at all. */
  function ProductSearchCall(vars: Vars, base: Value): (r: Outcome<Call>)
    ensures r.Raised? <==> !base.Str?
    ensures r.Done? ==> r.value.verb == "GET" && r.value.params == NoneIfEmpty(SearchParams(vars, SearchKeys))
    ensures r == CallTo("GET", base, "catalog/products", NoneIfEmpty(SearchParams(vars, SearchKeys)))
  {
    CallTo("GET", base, "catalog/products", NoneIfEmpty(SearchParams(vars, SearchKeys)))
  }

  /** `createRma`: refused unless order id, customer id, sku and reason are all set. */
  function CreateRmaCall(vars: Vars, base: Value): (r: Outcome<Call>)
    ensures r == Raised(ConnectorError(CreateRmaMissing)) <==>
      !(Truthy(FirstValue(vars, OrderKeys, Null)) && Truthy(FirstValue(vars, CustomerKeys, Null))
        && Truthy(FirstValue(vars, ["sku"], Null)) && Truthy(FirstValue(vars, ["reason"], Null)))
    ensures r.Done? ==> base.Str? && r.value.verb == "POST"
    ensures var orderId := FirstValue(vars, OrderKeys, Null);
      var customerId := FirstValue(vars, CustomerKeys, Null);
      var sku := FirstValue(vars, ["sku"], Null);
      var reason := FirstValue(vars, ["reason"], Null);
      Truthy(orderId) && Truthy(customerId) && Truthy(sku) && Truthy(reason) ==>
        r == CallTo("POST", base, "rmas", Some([("order_id", orderId), ("customer_id", customerId), ("sku", sku), ("reason", reason)]))
  {
    var orderId := FirstValue(vars, OrderKeys, Null);
    var customerId := FirstValue(vars, CustomerKeys, Null);
    var sku := FirstValue(vars, ["sku"], Null);
    var reason := FirstValue(vars, ["reason"], Null);
    if !(Truthy(orderId) && Truthy(customerId) && Truthy(sku) && Truthy(reason)) then
      Raised(ConnectorError(CreateRmaMissing))
    else
      CallTo("POST", base, "rmas", Some([("order_id", orderId), ("customer_id", customerId), ("sku", sku), ("reason", reason)]))
  }

  /** `createCart`: refused without a customer id. */
  function CreateCartCall(vars: Vars, base: Value): (r: Outcome<Call>)
    ensures r == Raised(ConnectorError(CreateCartMissing)) <==> !Truthy(FirstValue(vars, CustomerKeys, Null))
    ensures r.Done? ==> base.Str? && r.value.verb == "POST"
    ensures var customerId := FirstValue(vars, CustomerKeys, Null);
      Truthy(customerId) ==> r == CallTo("POST", base, "carts", Some([("customer_id", customerId)]))
  {
    var customerId := FirstValue(vars, CustomerKeys, Null);
    if !Truthy(customerId) then Raised(ConnectorError(CreateCartMissing))
    else CallTo("POST", base, "carts", Some([("customer_id", customerId)]))
  }

  /** `addCartItem`: the quantity (default 1) is converted first, so a bad quantity
      raises before missing variables are noticed; refused without cart id or sku. */
  function AddCartItemCall(vars: Vars, base: Value): (r: Outcome<Call>)
    ensures var quantity := IntOf(FirstValue(vars, ["quantity"], Int(1)));
      && (quantity.Raised? ==> r == Raised(quantity.failure))
      && (r == Raised(ConnectorError(AddCartItemMissing)) <==>
            quantity.Done? && !(Truthy(FirstValue(vars, CartKeys, Null)) && Truthy(FirstValue(vars, ["sku"], Null))))
      && (r.Done? ==> && base.Str? && r.value.verb == "POST"
                      && r.value.params == Some([("sku", FirstValue(vars, ["sku"], Null)), ("quantity", Int(quantity.value))]))
    ensures var quantity := IntOf(FirstValue(vars, ["quantity"], Int(1)));
      var cartId := FirstValue(vars, CartKeys, Null);
      var sku := FirstValue(vars, ["sku"], Null);
      quantity.Done? && Truthy(cartId) && Truthy(sku) ==>
        r == CallTo("POST", base, "carts/" + StrOf(cartId) + "/items", Some([("sku", sku), ("quantity", Int(quantity.value))]))
  {
    var cartId := FirstValue(vars, CartKeys, Null);
    var sku := FirstValue(vars, ["sku"], Null);
    match IntOf(FirstValue(vars, ["quantity"], Int(1)))
    case Raised(f) => Raised(f)
    case Done(quantity) =>
      if !Truthy(cartId) || !Truthy(sku) then Raised(ConnectorError(AddCartItemMissing))
      else CallTo("POST", base, "carts/" + StrOf(cartId) + "/items", Some([("sku", sku), ("quantity", Int(quantity))]))
  }

  /** `applyStoreCredit`: refused only when cart id or amount is absent, so a zero
      amount is forwarded. */
  function ApplyStoreCreditCall(vars: Vars, base: Value): (r: Outcome<Call>)
    ensures r == Raised(ConnectorError(ApplyStoreCreditMissing)) <==>
      FirstValue(vars, CartKeys, Null) == Null || FirstValue(vars, ["amount"], Null) == Null
    ensures r.Done? ==> && base.Str? && r.value.verb == "POST"
                        && r.value.params == Some([("amount", FirstValue(vars, ["amount"], Null))])
    ensures var cartId := FirstValue(vars, CartKeys, Null);
      var amount := FirstValue(vars, ["amount"], Null);
      cartId != Null && amount != Null ==>
        r == CallTo("POST", base, "carts/" + StrOf(cartId) + "/discounts/store-credit", Some([("amount", amount)]))
  {
    var cartId := FirstValue(vars, CartKeys, Null);
    var amount := FirstValue(vars, ["amount"], Null);
    if cartId == Null || amount == Null then Raised(ConnectorError(ApplyStoreCreditMissing))
    else CallTo("POST", base, "carts/" + StrOf(cartId) + "/discounts/store-credit", Some([("amount", amount)]))
  }

  /** `placeOrder`: refused without a cart id; the payment method defaults to
      "credit_card". */
  function PlaceOrderCall(vars: Vars, base: Value): (r: Outcome<Call>)
    ensures r == Raised(ConnectorError(PlaceOrderMissing)) <==> !Truthy(FirstValue(vars, CartKeys, Null))
    ensures r.Done? ==> && base.Str? && r.value.verb == "POST"
                        && r.value.params == Some([("cart_id", FirstValue(vars, CartKeys, Null)),
                                                   ("payment_method", FirstValue(vars, ["paymentMethod"], Str("credit_card")))])
    ensures var cartId := FirstValue(vars, CartKeys, Null);
      Truthy(cartId) ==>
        r == CallTo("POST", base, "orders", Some([("cart_id", cartId), ("payment_method", FirstValue(vars, ["paymentMethod"], Str("credit_card")))]))
  {
    var cartId := FirstValue(vars, CartKeys, Null);
    var paymentMethod := FirstValue(vars, ["paymentMethod"], Str("credit_card"));
    if !Truthy(cartId) then Raised(ConnectorError(PlaceOrderMissing))
    else CallTo("POST", base, "orders", Some([("cart_id", cartId), ("payment_method", paymentMethod)]))
  }

  /** The validation and dispatch of `_handle_operation`, up to the HTTP call: each
      known operation is validated as above, any other is unsupported, and only a
      string base gives a call. */
  function PlanCall(operation: Value, vars: Vars, env: Env): (r: Outcome<Call>)
    ensures !KnownOperation(operation) ==> r == Raised(ConnectorError("Unsupported operation: " + StrOf(operation)))
    ensures r.Done? ==> KnownOperation(operation) && ApiBase(vars, env).Str?
    ensures var base := ApiBase(vars, env);
      && (operation == Str("listOrders") ==> r == ListOrdersCall(vars, base))
      && (operation == Str("productSearch") ==> r == ProductSearchCall(vars, base))
      && (operation == Str("createRma") ==> r == CreateRmaCall(vars, base))
      && (operation == Str("createCart") ==> r == CreateCartCall(vars, base))
      && (operation == Str("addCartItem") ==> r == AddCartItemCall(vars, base))
      && (operation == Str("applyStoreCredit") ==> r == ApplyStoreCreditCall(vars, base))
      && (operation == Str("placeOrder") ==> r == PlaceOrderCall(vars, base))
  {
    var base := ApiBase(vars, env);
    if operation == Str("listOrders") then ListOrdersCall(vars, base)
    else if operation == Str("productSearch") then ProductSearchCall(vars, base)
    else if operation == Str("createRma") then CreateRmaCall(vars, base)
    else if operation == Str("createCart") then CreateCartCall(vars, base)
    else if operation == Str("addCartItem") then AddCartItemCall(vars, base)
    else if operation == Str("applyStoreCredit") then ApplyStoreCreditCall(vars, base)
    else if operation == Str("placeOrder") then PlaceOrderCall(vars, base)
    else Raised(ConnectorError("Unsupported operation: " + StrOf(operation)))
  }

  /** The search sends exactly the non-empty search variables, in the order category,
      wifiMin, tags, and no parameters at all when none is set. */
  lemma ProductSearchParams(vars: Vars, env: Env)
    requires ApiBase(vars, env).Str?
    ensures var r := PlanCall(Str("productSearch"), vars, env);
      && r.Done?
      && (r.value.params.None? <==> forall k :: k in SearchKeys ==> !Qualifies(vars, k))
      && (r.value.params.Some? ==>
            && OrderedDict.Keys(r.value.params.value) == Filter(SearchKeys, QualifiesIn(vars))
            && forall i :: 0 <= i < |r.value.params.value| ==>
                 OrderedDict.Get(vars, r.value.params.value[i].0) == Some(r.value.params.value[i].1))
  {
    var ps := SearchParams(vars, SearchKeys);
    SearchParamsExact(vars, SearchKeys);
    var keys := OrderedDict.Keys(ps);
    if ps == [] {
      assert Filter(SearchKeys, QualifiesIn(vars)) == [];
      forall k | k in SearchKeys ensures !Qualifies(vars, k) {
        assert QualifiesIn(vars)(k) == Qualifies(vars, k);
        assert k !in Filter(SearchKeys, QualifiesIn(vars));
      }
    } else {
      assert ps[0].0 in keys;
      assert QualifiesIn(vars)(ps[0].0);
    }
  }

  /** `_handle_operation` after the call: the response becomes a dict with exactly the
      keys status and body, holding the status code and body of the response to the
      planned call; a failing call raises what it raised. */
  function Dispatch(operation: Value, vars: Vars, env: Env, request: Call -> Outcome<(int, Value)>): (r: Outcome<Value>)
    ensures r.Done? ==> && PlanCall(operation, vars, env).Done?
                        && var response := request(PlanCall(operation, vars, env).value);
                        && response.Done?
                        && r.value.Object?
                        && OrderedDict.Keys(r.value.fields) == ["status", "body"]
                        && r.value.fields[0].1 == Int(response.value.0)
                        && r.value.fields[1].1 == response.value.1
    ensures PlanCall(operation, vars, env).Raised? ==> r == Raised(PlanCall(operation, vars, env).failure)
    ensures PlanCall(operation, vars, env).Done? ==>
      var response := request(PlanCall(operation, vars, env).value);
      && (r.Done? <==> response.Done?)
      && (response.Raised? ==> r == Raised(response.failure))
  {
    match PlanCall(operation, vars, env)
    case Raised(f) => Raised(f)
    case Done(call) =>
      match request(call)
      case Raised(f) => Raised(f)
      case Done(response) =>
        var fields := [("status", Int(response.0)), ("body", response.1)];
        assert OrderedDict.Keys(fields) == ["status", "body"];
        Done(Object(fields))
  }

  /** The `productSearch` parameter loop. */
  method BuildSearchParams(vars: Vars) returns (params: Vars)
    ensures params == SearchParams(vars, SearchKeys)
  {
    params := [];
    for n := 0 to |SearchKeys|
      invariant params == SearchParams(vars, SearchKeys[..n])
    {
      assert SearchKeys[..n + 1][..n] == SearchKeys[..n];
      var value := Get(vars, [SearchKeys[n]], Null);
      if value != Null && value != Str("") {
        params := params + [(SearchKeys[n], value)];
      }
    }
    assert SearchKeys[..|SearchKeys|] == SearchKeys;
  }

  /** `_handle_operation`: the base read with `_get`, the search parameters built by
      the loop, then the call. */
  method HandleOperation(operation: Value, vars: Vars, env: Env, request: Call -> Outcome<(int, Value)>) returns (r: Outcome<Value>)
    ensures r == Dispatch(operation, vars, env, request)
  {
    var base := Get(vars, ["apiBaseUrl"], Str(GetEnv(env, "MAGENTO_API_BASE", Some(DefaultApiBase)).value));
    var call: Outcome<Call>;
    if operation == Str("productSearch") {
      var params := BuildSearchParams(vars);
      call := CallTo("GET", base, "catalog/products", NoneIfEmpty(params));
    } else {
      call := PlanCall(operation, vars, env);
    }
    if call.Raised? {
      return Raised(call.failure);
    }
    var response := request(call.value);
    if response.Raised? {
      return Raised(response.failure);
    }
    r := Done(Object([("status", Int(response.value.0)), ("body", response.value.1)]));
  }

  // ---------------------------------------------------------------------------
  // The job handler

  /** A value Python can use as a dict key; lists and dicts cannot. */
  predicate Hashable(v: Value) {
    !v.List? && !v.Object?
  }

  /** What `magento_connector` returns for a job: the single entry result variable to
      result. It raises when there is no operation and when the operation raises; the
      result variable defaults to "magentoResponse". */
  function ConnectorOutcome(variables: Option<Vars>, env: Env, request: Call -> Outcome<(int, Value)>): (r: Outcome<(Value, Value)>)
    ensures var vars := variables.GetOr([]);
      && (!Truthy(FirstValue(vars, ["operation"], Null)) ==> r == Raised(ConnectorError("operation is required")))
      && (r.Done? ==>
            && Truthy(FirstValue(vars, ["operation"], Null))
            && Dispatch(FirstValue(vars, ["operation"], Null), vars, env, request) == Done(r.value.1)
            && r.value.0 == FirstValue(vars, ["resultVariable"], Str(DefaultResultVariable))
            && Hashable(r.value.0))
      && (Truthy(FirstValue(vars, ["operation"], Null)) && Dispatch(FirstValue(vars, ["operation"], Null), vars, env, request).Raised? ==>
            r == Raised(Dispatch(FirstValue(vars, ["operation"], Null), vars, env, request).failure))
    ensures var vars := variables.GetOr([]);
      var operation := FirstValue(vars, ["operation"], Null);
      var resultVariable := FirstValue(vars, ["resultVariable"], Str(DefaultResultVariable));
      && (r.Done? <==> Truthy(operation) && Dispatch(operation, vars, env, request).Done? && Hashable(resultVariable))
      && (Truthy(operation) && Dispatch(operation, vars, env, request).Done? && !Hashable(resultVariable) ==> r == Raised(TypeError))
  {
    var vars := variables.GetOr([]);
    var operation := FirstValue(vars, ["operation"], Null);
    if !Truthy(operation) then Raised(ConnectorError("operation is required"))
    else
      match Dispatch(operation, vars, env, request)
      case Raised(f) => Raised(f)
      case Done(result) =>
        var resultVariable := FirstValue(vars, ["resultVariable"], Str(DefaultResultVariable));
        if Hashable(resultVariable) then Done((resultVariable, result)) else Raised(TypeError)
  }

  /** Without a resultVariable the response is stored under "magentoResponse". */
  lemma DefaultResultName(variables: Option<Vars>, env: Env, request: Call -> Outcome<(int, Value)>)
    requires !Qualifies(variables.GetOr([]), "resultVariable")
    ensures ConnectorOutcome(variables, env, request).Done? ==>
      ConnectorOutcome(variables, env, request).value.0 == Str(DefaultResultVariable)
  {
    assert ["resultVariable"][0] == "resultVariable";
    assert !QualifiesIn(variables.GetOr([]))(["resultVariable"][0]);
  }

  /** `magento_connector`. */
  method MagentoConnector(variables: Option<Vars>, env: Env, request: Call -> Outcome<(int, Value)>) returns (r: Outcome<(Value, Value)>)
    ensures r == ConnectorOutcome(variables, env, request)
  {
    var vars := if variables.Some? then variables.value else [];
    var operation := Get(vars, ["operation"], Null);
    if !Truthy(operation) {
      return Raised(ConnectorError("operation is required"));
    }
    var result := HandleOperation(operation, vars, env, request);
    if result.Raised? {
      return Raised(result.failure);
    }
    var resultVariable := Get(vars, ["resultVariable"], Str(DefaultResultVariable));
    if !Hashable(resultVariable) {
      return Raised(TypeError);
    }
    r := Done((resultVariable, result.value));
  }
}
