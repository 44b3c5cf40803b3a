/** The test double for the HTTP JSON connector
    (ecommerce-agent/src/test/java/io/berndruecker/demo/HttpJsonConnectorMock.java):
    a queue of expected calls, each a method, a URL fragment and a canned response,
    consumed front to back by the job handler. The builders are objects, and a stub
    keeps a reference to its response builder, so a builder changed after the stub
    was registered changes what the stub answers. */
module ConnectorMock {
  import opened Results
  import opened Text
  import opened Values

  /** The ways the handler can fail a test: a JUnit assertion with its message, or a
      null job variable dereferenced. */
  datatype TestFailure = AssertionFailed(message: string) | NullPointer

  /** What the handler completes the job with, or why it fails. */
  datatype JobOutcome = Completed(variables: map<string, Value>) | Failed(failure: TestFailure)

  const NoMoreCallsMessage := "No more HTTP calls expected, but connector was invoked"
  const MethodMessage := "Unexpected HTTP method"
  const NotAllCalledMessage := "Not all expected HTTP calls were executed"

  function UrlMessage(urlContains: string, url: string): string {
    "Unexpected URL. Expected to contain [" + urlContains + "] but was [" + url + "]"
  }

  /** Java's `String.valueOf` of a job variable that is not null. Maps print their
      entries as `key=value` in the order given. */
  function JavaString(v: Value): string
    decreases v, Width(v)
  {
    match v
    case Null => "null"
    case Bool(b) => if b then "true" else "false"
    case Int(i) => IntToString(i)
    case Str(s) => s
    case List(xs) => "[" + JavaItems(v, xs) + "]"
    case Object(fs) => "{" + JavaFields(v, fs) + "}"
  }

  function JavaItems(parent: Value, xs: seq<Value>): string
    requires forall i :: 0 <= i < |xs| ==> xs[i] < parent
    decreases parent, |xs|
  {
    if xs == [] then ""
    else JavaString(xs[0]) + (if |xs| == 1 then "" else ", " + JavaItems(parent, xs[1..]))
  }

  function JavaFields(parent: Value, fs: seq<(string, Value)>): string
    requires forall i :: 0 <= i < |fs| ==> fs[i].1 < parent
    decreases parent, |fs|
  {
    if fs == [] then ""
    else fs[0].0 + "=" + JavaString(fs[0].1) + (if |fs| == 1 then "" else ", " + JavaFields(parent, fs[1..]))
  }

  /** `asString(vars.get(name))`: null for an absent or null variable. */
  function VariableText(jobVariables: map<string, Value>, name: string): (r: Option<string>)
    ensures r.None? <==> name !in jobVariables || jobVariables[name] == Null
    ensures name in jobVariables && jobVariables[name].Str? ==> r == Some(jobVariables[name].s)
  {
    if name !in jobVariables || jobVariables[name] == Null then None
    else Some(JavaString(jobVariables[name]))
  }

  /** A stub as the handler sees it when it takes it from the queue: the expected
      method and URL fragment, and what its response builder holds at that moment. */
  datatype Stub = Stub(verb: string, urlContains: string, status: int, body: Option<string>, variables: map<string, Value>)

  /** The connector's `httpResult`: status, body and the reason "OK". */
  function HttpResult(stub: Stub): Value {
    Object([("status", Int(stub.status)),
            ("body", if stub.body.Some? then Str(stub.body.value) else Null),
            ("reason", Str("OK"))])
  }

  /** What `handle` does with the stub it took: it fails when there was none, when a
      method or URL variable is missing, when the upper-cased method differs or when
      the lower-cased URL does not contain the fragment; otherwise it completes the job
      with `httpResult` and the stub's extra variables, which win on a name clash. */
  function HandleOutcome(stub: Option<Stub>, jobVariables: map<string, Value>): (r: JobOutcome)
    ensures stub.None? ==> r == Failed(AssertionFailed(NoMoreCallsMessage))
    ensures stub.Some? && VariableText(jobVariables, "method").None? ==> r == Failed(NullPointer)
    ensures stub.Some? && VariableText(jobVariables, "url").None? ==> r == Failed(NullPointer)
    ensures r.Completed? <==>
      && stub.Some?
      && VariableText(jobVariables, "method").Some?
      && VariableText(jobVariables, "url").Some?
      && ToUpper(VariableText(jobVariables, "method").value) == stub.value.verb
      && IsSubstring(stub.value.urlContains, ToLower(VariableText(jobVariables, "url").value))
    ensures r == Failed(AssertionFailed(MethodMessage)) <==>
      && stub.Some?
      && VariableText(jobVariables, "method").Some?
      && VariableText(jobVariables, "url").Some?
      && ToUpper(VariableText(jobVariables, "method").value) != stub.value.verb
    ensures stub.Some? && VariableText(jobVariables, "url").Some? ==>
      (r == Failed(AssertionFailed(UrlMessage(stub.value.urlContains, ToLower(VariableText(jobVariables, "url").value)))) <==>
      && VariableText(jobVariables, "method").Some?
      && ToUpper(VariableText(jobVariables, "method").value) == stub.value.verb
      && !IsSubstring(stub.value.urlContains, ToLower(VariableText(jobVariables, "url").value)))
    ensures r.Completed? ==>
      && r.variables.Keys == stub.value.variables.Keys + {"httpResult"}
      && (forall name :: name in stub.value.variables ==> r.variables[name] == stub.value.variables[name])
      && ("httpResult" !in stub.value.variables ==> r.variables["httpResult"] == HttpResult(stub.value))
  {
    match stub
    case None => Failed(AssertionFailed(NoMoreCallsMessage))
    case Some(s) =>
      var verb := VariableText(jobVariables, "method");
      var url := VariableText(jobVariables, "url");
      if verb.None? || url.None? then Failed(NullPointer)
      else if ToUpper(verb.value) != s.verb then Failed(AssertionFailed(MethodMessage))
      else if !IsSubstring(s.urlContains, ToLower(url.value)) then
        Failed(AssertionFailed(UrlMessage(s.urlContains, ToLower(url.value))))
      else
        Completed(map["httpResult" := HttpResult(s)] + s.variables)
  }

  /** A call that matches its stub gets exactly the stub's status and body back when
      the stub does not override `httpResult` itself. */
  lemma MatchingCallAnswered(stub: Stub, verb: string, url: string)
    requires ToUpper(verb) == stub.verb
    requires IsSubstring(stub.urlContains, ToLower(url))
    requires "httpResult" !in stub.variables
    ensures var r := HandleOutcome(Some(stub), map["method" := Str(verb), "url" := Str(url)]);
      && r.Completed?
      && var result := r.variables["httpResult"];
      && result.Object?
      && |result.fields| == 3
      && result.fields[0] == ("status", Int(stub.status))
      && result.fields[1] == ("body", if stub.body.Some? then Str(stub.body.value) else Null)
      && result.fields[2] == ("reason", Str("OK"))
  {
    var vars := map["method" := Str(verb), "url" := Str(url)];
    assert VariableText(vars, "method") == Some(verb);
    assert VariableText(vars, "url") == Some(url);
  }

  /** `aResponse()` and its fluent setters. Each setter changes one field and returns
      the builder itself. */
  class ResponseDefinitionBuilder {
    var status: int
    var body: Option<string>
    var variables: map<string, Value>

    constructor()
      ensures status == 0 && body == None && variables == map[]
    {
      status := 0;
      body := None;
      variables := map[];
    }

    method WithStatus(newStatus: int) returns (self: ResponseDefinitionBuilder)
      modifies this
      ensures self == this
      ensures status == newStatus && body == old(body) && variables == old(variables)
    {
      status := newStatus;
      self := this;
    }

    method WithBody(newBody: Option<string>) returns (self: ResponseDefinitionBuilder)
      modifies this
      ensures self == this
      ensures body == newBody && status == old(status) && variables == old(variables)
    {
      body := newBody;
      self := this;
    }

    method WithResultVariable(name: string, value: Value) returns (self: ResponseDefinitionBuilder)
      modifies this
      ensures self == this
      ensures variables == old(variables)[name := value] && status == old(status) && body == old(body)
    {
      variables := variables[name := value];
      self := this;
    }
  }

  /** A registered expectation. It holds its response builder by reference. */
  class StubMapping {
    const verb: string
    const urlContains: string
    const response: ResponseDefinitionBuilder

    constructor(verb: string, urlContains: string, response: ResponseDefinitionBuilder)
      ensures this.verb == verb && this.urlContains == urlContains && this.response == response
    {
      this.verb := verb;
      this.urlContains := urlContains;
      this.response := response;
    }

    /** The stub with what its builder holds now. */
    function Current(): Stub
      reads response
    {
      Stub(verb, urlContains, response.status, response.body, response.variables)
    }
  }

  /** `get(...)` and `post(...)`: the method and the lower-cased URL fragment. */
  class RequestPatternBuilder {
    const verb: string
    const urlContains: string

    constructor(verb: string, urlContains: string)
      ensures this.verb == verb && this.urlContains == urlContains
    {
      this.verb := verb;
      this.urlContains := urlContains;
    }

    method WillReturn(response: ResponseDefinitionBuilder) returns (mapping: StubMapping)
      ensures fresh(mapping)
      ensures mapping.verb == verb && mapping.urlContains == urlContains && mapping.response == response
    {
      mapping := new StubMapping(verb, urlContains, response);
    }
  }

  method Get(urlContains: string) returns (b: RequestPatternBuilder)
    ensures fresh(b) && b.verb == "GET" && b.urlContains == ToLower(urlContains)
  {
    b := new RequestPatternBuilder("GET", ToLower(urlContains));
  }

  method Post(urlContains: string) returns (b: RequestPatternBuilder)
    ensures fresh(b) && b.verb == "POST" && b.urlContains == ToLower(urlContains)
  {
    b := new RequestPatternBuilder("POST", ToLower(urlContains));
  }

  method AResponse() returns (b: ResponseDefinitionBuilder)
    ensures fresh(b) && b.status == 0 && b.body == None && b.variables == map[]
  {
    b := new ResponseDefinitionBuilder();
  }

  /** The mock job handler with its queue of expected calls. */
  class HttpJsonConnectorMock {
    var mappings: seq<StubMapping>

    constructor()
      ensures mappings == []
    {
      mappings := [];
    }

    /** `stubFor`: the expectation joins the back of the queue. */
    method StubFor(mapping: StubMapping)
      modifies this
      ensures mappings == old(mappings) + [mapping]
    {
      mappings := mappings + [mapping];
    }

    /** `handle`: the front stub is taken off the queue before anything is checked, so
        it is gone even when the call then fails. */
    method Handle(jobVariables: map<string, Value>) returns (r: JobOutcome)
      modifies this
      ensures mappings == if old(mappings) == [] then [] else old(mappings)[1..]
      ensures r == HandleOutcome(if old(mappings) == [] then None else Some(old(mappings[0].Current())), jobVariables)
    {
      if mappings == [] {
        return Failed(AssertionFailed(NoMoreCallsMessage));
      }
      var mapping := mappings[0];
      mappings := mappings[1..];
      var verb := VariableText(jobVariables, "method");
      if verb.None? {
        return Failed(NullPointer);
      }
      var upperVerb := ToUpper(verb.value);
      var url := VariableText(jobVariables, "url");
      if url.None? {
        return Failed(NullPointer);
      }
      var lowerUrl := ToLower(url.value);
      if mapping.verb != upperVerb {
        return Failed(AssertionFailed(MethodMessage));
      }
      if !IsSubstring(mapping.urlContains, lowerUrl) {
        return Failed(AssertionFailed(UrlMessage(mapping.urlContains, lowerUrl)));
      }
      var httpResult := Object([("status", Int(mapping.response.status)),
                                ("body", if mapping.response.body.Some? then Str(mapping.response.body.value) else Null),
                                ("reason", Str("OK"))]);
      var resultVariables := map["httpResult" := httpResult];
      resultVariables := resultVariables + mapping.response.variables;
      r := Completed(resultVariables);
    }

    /** `verifyNoMoreCalls`: passes exactly when every expected call was made. */
    method VerifyNoMoreCalls() returns (r: Option<TestFailure>)
      ensures r.None? <==> mappings == []
      ensures r.Some? ==> r.value == AssertionFailed(NotAllCalledMessage)
    {
      if mappings == [] {
        r := None;
      } else {
        r := Some(AssertionFailed(NotAllCalledMessage));
      }
    }
  }

  /** Stubs are answered in the order they were registered: after registering `first`
      and then `second` on an empty mock, the first call takes `first` and the second
      call takes `second`. */
  method FifoOrder(first: StubMapping, second: StubMapping, call1: map<string, Value>, call2: map<string, Value>)
    returns (r1: JobOutcome, r2: JobOutcome)
    ensures r1 == HandleOutcome(Some(first.Current()), call1)
    ensures r2 == HandleOutcome(Some(second.Current()), call2)
  {
    var mock := new HttpJsonConnectorMock();
    mock.StubFor(first);
    mock.StubFor(second);
    r1 := mock.Handle(call1);
    r2 := mock.Handle(call2);
    var verdict := mock.VerifyNoMoreCalls();
    assert verdict.None?;
  }
}
