/** The inbound webhook proxy (fake-backends/routers/inbound.py): it forwards
    Twilio and voice webhooks to the process engine, dropping hop-by-hop headers,
    turning XML or form bodies into JSON on the way in and, for the voice routes,
    JSON answers into XML on the way out. The HTTP exchange itself and the
    XML/JSON/form codecs are outside the model; what is modelled is every decision
    the proxy takes about URLs, headers and bodies. */
module Inbound {
  import opened Results
  import opened Text
  import opened Lists
  import OrderedDict

  newtype byte = b: int | 0 <= b < 256

  /** Header name and value pairs, in order. */
  type Headers = seq<(string, string)>

  const TargetBase := "http://localhost:8086"
  const FormContentType := "application/x-www-form-urlencoded"
  const JsonContentType := "application/json"
  const Redacted := "<redacted>"
  const PreviewLimit := 1024

  const HopByHop := {"host", "connection", "keep-alive", "proxy-authenticate", "proxy-authorization",
                     "te", "trailers", "transfer-encoding", "upgrade"}
  const BodyHeaders := {"content-type", "content-length"}
  const SensitiveHeaders := {"authorization", "cookie", "set-cookie"}
  const ResponseDropped := {"connection", "keep-alive", "proxy-authenticate", "proxy-authorization",
                            "te", "trailers", "transfer-encoding", "upgrade", "content-type"}

  // ---------------------------------------------------------------------------
  // Routes

  /** The route table: where each inbound path is forwarded and whether its bodies are
      converted. Only the Twilio passthrough forwards unchanged. */
  function Route(path: string): (r: Option<(string, bool, bool)>)
    ensures r.Some? ==> r.value.0 == "/inbound" + path
    ensures r.Some? ==> (r.value.1 <==> path != "/twilio") && r.value.1 == r.value.2
    ensures r.None? <==> path !in ["/twilio", "/voice", "/voice-answer", "/voice-ask", "/voice-ended"]
  {
    if path == "/twilio" then Some(("/inbound/twilio", false, false))
    else if path in ["/voice", "/voice-answer", "/voice-ask", "/voice-ended"] then Some(("/inbound" + path, true, true))
    else None
  }

  /** `full_url`: the target, followed by "?" and the query only when there is one. */
  function FullUrl(targetPath: string, query: string): (r: string)
    ensures query == "" ==> r == TargetBase + targetPath
    ensures query != "" ==> r == TargetBase + targetPath + "?" + query
  {
    var targetUrl := TargetBase + targetPath;
    if query == "" then targetUrl else targetUrl + "?" + query
  }

  /** When the target has no '?', the query can be read back from the full URL. */
  lemma FullUrlQuery(targetPath: string, query: string)
    requires '?' !in targetPath && query != ""
    ensures var u := FullUrl(targetPath, query);
      '?' in u && u[IndexOfChar(u, '?') + 1..] == query && u[..IndexOfChar(u, '?')] == TargetBase + targetPath
  {
    var t := TargetBase + targetPath;
    assert '?' !in TargetBase;
    assert '?' !in t by {
      forall i | 0 <= i < |t| ensures t[i] != '?' {
        if i >= |TargetBase| {
          assert t[i] == targetPath[i - |TargetBase|];
        }
      }
    }
    IndexOfCharAfter(t, '?', query);
    var u := t + "?" + query;
    assert u[..|t|] == t;
    assert u[|t| + 1..] == query;
  }

  // ---------------------------------------------------------------------------
  // Content types

  /** `_is_xml_content`: no or an empty type is not XML; otherwise the type is XML when
      its lower-cased form mentions "xml". */
  function IsXmlContent(contentType: Option<string>): (r: bool)
    ensures contentType.None? || contentType == Some("") ==> !r
    ensures contentType.Some? && contentType.value != "" ==> (r <==> IsSubstring("xml", ToLower(contentType.value)))
  {
    if contentType.None? || contentType.value == "" then false
    else IsSubstring("xml", ToLower(contentType.value))
  }

  /** Lower-casing after upper-casing is lower-casing. */
  lemma LowerOfUpper(s: string)
    ensures ToLower(ToUpper(s)) == ToLower(s)
  {
  }

  /** The XML test does not depend on letter case. */
  lemma XmlContentIgnoresCase(contentType: string)
    ensures IsXmlContent(Some(ToUpper(contentType))) == IsXmlContent(Some(contentType))
  {
    LowerOfUpper(contentType);
    assert |ToUpper(contentType)| == |contentType|;
  }

  /** How the request body is converted. */
  datatype Conversion = Unconverted | FromXml | FromForm

  /** The request body is converted only for a converting route and a non-empty body;
      XML content is recognised before form content. */
  function RequestConversion(convertXml: bool, body: seq<byte>, contentType: Option<string>): (r: Conversion)
    ensures r != Unconverted ==> convertXml && body != []
    ensures r == FromXml <==> convertXml && body != [] && IsXmlContent(contentType)
    ensures r == FromForm <==>
      && convertXml && body != [] && !IsXmlContent(contentType)
      && contentType.Some? && contentType.value != ""
      && IsSubstring(FormContentType, ToLower(contentType.value))
  {
    if convertXml && body != [] then
      if IsXmlContent(contentType) then FromXml
      else if contentType.Some? && contentType.value != "" && IsSubstring(FormContentType, ToLower(contentType.value)) then FromForm
      else Unconverted
    else Unconverted
  }

  // ---------------------------------------------------------------------------
  // Request headers

  predicate IsHopByHop(name: string) { ToLower(name) in HopByHop }

  /** The value the last header named `name` carries. */
  function LastValue(headers: Headers, name: string): (r: Option<string>)
    ensures r.Some? ==> (name, r.value) in headers
    ensures r.Some? ==> exists i :: 0 <= i < |headers| && headers[i] == (name, r.value) && forall j :: i < j < |headers| ==> headers[j].0 != name
    ensures r.None? <==> forall i :: 0 <= i < |headers| ==> headers[i].0 != name
  {
    if headers == [] then None
    else if headers[|headers| - 1].0 == name then Some(headers[|headers| - 1].1)
    else LastValue(headers[..|headers| - 1], name)
  }

  /** The forwarded headers: the incoming ones written into a dict in order, skipping
      hop-by-hop names. */
  function ForwardedHeaders(incoming: Headers): Headers {
    if incoming == [] then []
    else
      var rest := ForwardedHeaders(incoming[..|incoming| - 1]);
      var last := incoming[|incoming| - 1];
      if IsHopByHop(last.0) then rest else OrderedDict.Put(rest, last.0, last.1)
  }

  /** A forwarded header has no hop-by-hop name, in any letter case, and carries the
      value the incoming request last gave it; every other incoming header is
      forwarded. No name is forwarded twice. */
  lemma {:induction false} ForwardedHeadersExact(incoming: Headers, name: string)
    ensures OrderedDict.DistinctKeys(ForwardedHeaders(incoming))
    ensures OrderedDict.Get(ForwardedHeaders(incoming), name) == if IsHopByHop(name) then None else LastValue(incoming, name)
  {
    if incoming != [] {
      var init := incoming[..|incoming| - 1];
      ForwardedHeadersExact(init, name);
      var last := incoming[|incoming| - 1];
      if last.0 == name {
        assert LastValue(incoming, name) == Some(last.1);
      } else {
        assert LastValue(incoming, name) == LastValue(init, name);
      }
    } else {
      assert OrderedDict.IndexOf(ForwardedHeaders(incoming), name).None?;
    }
  }

  /** The header loop of `_forward`. */
  method ForwardHeaders(incoming: Headers) returns (headers: Headers)
    ensures headers == ForwardedHeaders(incoming)
  {
    headers := [];
    for n := 0 to |incoming|
      invariant headers == ForwardedHeaders(incoming[..n])
    {
      assert incoming[..n + 1][..n] == incoming[..n];
      var (k, v) := incoming[n];
      if ToLower(k) in HopByHop {
        continue;
      }
      headers := OrderedDict.Put(headers, k, v);
    }
    assert incoming[..|incoming|] == incoming;
  }

  predicate IsBodyHeader(name: string) { ToLower(name) in BodyHeaders }

  /** The removal loop: every header whose name is content-type or content-length, in
      any letter case, is popped. */
  method DropBodyHeaders(headers: Headers) returns (h: Headers)
    requires OrderedDict.DistinctKeys(headers)
    ensures OrderedDict.DistinctKeys(h)
    ensures forall e :: e in h <==> e in headers && !IsBodyHeader(e.0)
  {
    var keys := OrderedDict.Keys(headers);
    h := headers;
    for n := 0 to |keys|
      invariant OrderedDict.DistinctKeys(h)
      invariant forall e :: e in h <==> e in headers && !(IsBodyHeader(e.0) && e.0 in keys[..n])
    {
      assert keys[..n + 1] == keys[..n] + [keys[n]];
      if ToLower(keys[n]) in BodyHeaders {
        h := OrderedDict.Remove(h, keys[n]);
      }
    }
    assert keys[..|keys|] == keys;
    forall e | e in headers ensures e.0 in keys {
      var i :| 0 <= i < |headers| && headers[i] == e;
      assert keys[i] == e.0;
    }
  }

  /** After a conversion: every content-type and content-length header, in any letter
      case, is removed, and "Content-Type: application/json" is the one that remains;
      all other headers are kept as they were. */
  method JsonHeaders(headers: Headers) returns (r: Headers)
    requires OrderedDict.DistinctKeys(headers)
    ensures OrderedDict.DistinctKeys(r)
    ensures forall e :: e in r <==> (e in headers && !IsBodyHeader(e.0)) || e == ("Content-Type", JsonContentType)
    ensures forall e :: e in r && IsBodyHeader(e.0) ==> e == ("Content-Type", JsonContentType)
  {
    var h := DropBodyHeaders(headers);
    r := OrderedDict.Put(h, "Content-Type", JsonContentType);
    PutFresh(h, "Content-Type", JsonContentType);
    ContentTypeIsBodyHeader();
  }

  lemma ContentTypeIsBodyHeader()
    ensures IsBodyHeader("Content-Type")
  {
    BodyHeaderByLetters("Content-Type");
  }

  /** A name whose letters lower to those of "content-type" is a body header. */
  lemma BodyHeaderByLetters(name: string)
    requires |name| == 12 && forall i :: 0 <= i < 12 ==> LowerChar(name[i]) == "content-type"[i]
    ensures IsBodyHeader(name)
  {
    assert ToLower(name) == "content-type";
  }

  /** Putting a name into distinct headers adds that entry and keeps every entry for
      another name. */
  lemma PutFresh(h: Headers, name: string, value: string)
    requires OrderedDict.DistinctKeys(h)
    ensures forall e :: e in OrderedDict.Put(h, name, value) <==> (e in h && e.0 != name) || e == (name, value)
  {
    var r := OrderedDict.Put(h, name, value);
    forall e ensures e in r <==> (e in h && e.0 != name) || e == (name, value) {
      OrderedDict.GetIffEntry(r, e.0, e.1);
      OrderedDict.GetIffEntry(h, e.0, e.1);
    }
  }

  // ---------------------------------------------------------------------------
  // Logging helpers

  predicate IsSensitive(name: string) { ToLower(name) in SensitiveHeaders }

  /** `_sanitize_headers`: the same names in the same order; authorization, cookie and
      set-cookie, in any letter case, read "<redacted>", every other value is kept. */
  method SanitizeHeaders(h: Headers) returns (redacted: Headers)
    requires OrderedDict.DistinctKeys(h)
    ensures |redacted| == |h|
    ensures forall i :: 0 <= i < |h| ==>
      redacted[i] == (h[i].0, if IsSensitive(h[i].0) then Redacted else h[i].1)
  {
    redacted := [];
    for n := 0 to |h|
      invariant |redacted| == n
      invariant forall i :: 0 <= i < n ==> redacted[i] == (h[i].0, if IsSensitive(h[i].0) then Redacted else h[i].1)
    {
      var (hk, hv) := h[n];
      assert OrderedDict.IndexOf(redacted, hk).None? by {
        forall j | 0 <= j < |redacted| ensures redacted[j].0 != hk {
          assert redacted[j].0 == h[j].0;
        }
      }
      if ToLower(hk) in SensitiveHeaders {
        redacted := OrderedDict.Put(redacted, hk, Redacted);
      } else {
        redacted := OrderedDict.Put(redacted, hk, hv);
      }
    }
  }

  /** The bytes `_preview_bytes` decodes: none for an empty body, otherwise the first
      `limit` of them. */
  function PreviewBytes(b: seq<byte>, limit: nat): (r: seq<byte>)
    ensures |r| == Min(|b|, limit)
    ensures r == b[..|r|]
    ensures r == [] <==> b == [] || limit == 0
  {
    if b == [] then [] else b[..Min(|b|, limit)]
  }

  // ---------------------------------------------------------------------------
  // Response

  predicate KeptInResponse(e: (string, string)) { ToLower(e.0) !in ResponseDropped }

  /** The response headers passed back: the upstream headers in order, without the
      hop-by-hop ones and without content-type, which is set from the media type. */
  function ResponseHeaders(upstream: Headers): (r: Headers)
    ensures forall e :: e in r <==> e in upstream && ToLower(e.0) !in ResponseDropped
    ensures forall i :: 0 <= i < |r| ==> ToLower(r[i].0) != "content-type" && ToLower(r[i].0) != "transfer-encoding"
    ensures |r| <= |upstream|
    ensures |upstream| == 1 ==> r == if KeptInResponse(upstream[0]) then upstream else []
  {
    Filter(upstream, KeptInResponse)
  }

  /** The headers kept keep their upstream order: those of a first part of the
      upstream headers come before those of the rest. */
  lemma ResponseHeadersInOrder(first: Headers, rest: Headers)
    ensures ResponseHeaders(first + rest) == ResponseHeaders(first) + ResponseHeaders(rest)
  {
    FilterAppend(first, rest, KeptInResponse);
  }

  /** A kept header occurs as often as upstream; a dropped one never. */
  lemma ResponseHeadersCounts(upstream: Headers, e: (string, string))
    ensures multiset(ResponseHeaders(upstream))[e] == if KeptInResponse(e) then multiset(upstream)[e] else 0
  {
    FilterMultiset(upstream, KeptInResponse, e);
  }

  /** Whether the response is converted to XML, and the media type sent back: a JSON
      answer with a body on a converting route becomes "application/xml"; otherwise
      the upstream content type, or "" when there is none, is kept. */
  function ResponseConversion(convertResponse: bool, contentType: Option<string>, body: seq<byte>): (r: (bool, string))
    ensures r.0 <==> convertResponse && IsSubstring(JsonContentType, ToLower(contentType.GetOr(""))) && body != []
    ensures r.1 == if r.0 then "application/xml" else contentType.GetOr("")
  {
    var ct := contentType.GetOr("");
    if convertResponse && IsSubstring(JsonContentType, ToLower(ct)) && body != [] then (true, "application/xml")
    else (false, ct)
  }

  // ---------------------------------------------------------------------------
  // Form bodies

  /** A form field after normalisation: one value as itself, several as a list. */
  datatype FormValue = Single(value: string) | Many(values: seq<string>)

  function Normalized(values: seq<string>): FormValue {
    if |values| == 1 then Single(values[0]) else Many(values)
  }

  function Expanded(v: FormValue): seq<string> {
    match v
    case Single(x) => [x]
    case Many(xs) => xs
  }

  /** Normalisation loses nothing: the values of a field can be read back from it. */
  lemma NormalizedExpands(values: seq<string>)
    ensures Expanded(Normalized(values)) == values
    ensures Normalized(values).Single? <==> |values| == 1
  {
    if |values| == 1 {
      assert values == [values[0]];
    }
  }

  /** The normalisation loop: every field of the parsed form, in order, with its
      values normalised. */
  method NormalizeForm(form: seq<(string, seq<string>)>) returns (normalized: seq<(string, FormValue)>)
    requires OrderedDict.DistinctKeys(form)
    ensures |normalized| == |form|
    ensures forall i :: 0 <= i < |form| ==> normalized[i] == (form[i].0, Normalized(form[i].1))
  {
    normalized := [];
    for n := 0 to |form|
      invariant |normalized| == n
      invariant forall i :: 0 <= i < n ==> normalized[i] == (form[i].0, Normalized(form[i].1))
    {
      var (k, v) := form[n];
      assert OrderedDict.IndexOf(normalized, k).None? by {
        forall j | 0 <= j < |normalized| ensures normalized[j].0 != k {
          assert normalized[j].0 == form[j].0;
        }
      }
      normalized := OrderedDict.Put(normalized, k, if |v| == 1 then Single(v[0]) else Many(v));
    }
  }
}
