/**
 * The checks the data reduction proxy integration tests make on the responses
 * a page load produced: whether a response should and does carry the proxy's
 * Via header, which client type the request's Chrome-Proxy header named, and
 * the counting checks that turn a list of responses into results or errors.
 */
module ChromeProxyMetrics {
  import opened Wrappers
  import opened PyStrings

  const ChromeProxyViaHeader: string := "Chrome-Compression-Proxy"
  const ChromeProxyViaHeaderDeprecated: string := "1.1 Chrome Compression Proxy"

  /**
   * The parts of a recorded response the checks read. `headers` and
   * `requestHeaders` are the response's and the request's headers by name.
   */
  datatype Response = Response(
    url: string,
    status: int,
    servedFromCache: bool,
    headers: map<string, string>,
    requestHeaders: map<string, string>)

  /** A response header by name, or None when the response does not carry it. */
  function GetHeader(r: Response, name: string): Option<string>
  {
    if name in r.headers then Some(r.headers[name]) else None
  }

  // ---------------------------------------------------------------------
  // Per-response predicates
  // ---------------------------------------------------------------------

  /**
   * Whether the proxy should have handled the response: not for https or
   * data: URLs, not for 304 Not Modified or cache hits, and not for a response
   * without any header.
   */
  predicate ShouldHaveChromeProxyViaHeader(r: Response)
  {
    if StartsWith(r.url, "https") || StartsWith(r.url, "data:") then false
    else if r.status == 304 || r.servedFromCache then false
    else if r.headers == map[] then false
    else true
  }

  /** Each of `parts` stripped of the characters in `chars`. */
  function StripAll(parts: seq<string>, chars: set<char>): (r: seq<string>)
    ensures |r| == |parts|
    ensures forall i :: 0 <= i < |parts| ==> r[i] == Strip(parts[i], chars)
  {
    seq(|parts|, i requires 0 <= i < |parts| => Strip(parts[i], chars))
  }

  /** Every entry StripAll gives back is clean at both ends, so stripping again changes nothing. */
  lemma StripAllHasEnds(parts: seq<string>, chars: set<char>)
    ensures forall i :: 0 <= i < |parts| ==> StripEnds(StripAll(parts, chars)[i], chars)
    ensures StripAll(StripAll(parts, chars), chars) == StripAll(parts, chars)
  {
    forall i | 0 <= i < |parts|
      ensures StripEnds(StripAll(parts, chars)[i], chars)
      ensures Strip(StripAll(parts, chars)[i], chars) == StripAll(parts, chars)[i]
    {
      StripHasEnds(parts[i], chars);
      StripIdempotent(parts[i], chars);
    }
  }

  /** The comma-separated entries of a Via header, each stripped of spaces. */
  function ViaEntries(via: string): seq<string>
  {
    StripAll(Split(via, ','), {' '})
  }

  /** One Via entry names the proxy: in the old format, or in the new one after a 4-character version. */
  predicate IsProxyViaEntry(v: string)
  {
    v == ChromeProxyViaHeaderDeprecated || From(v, 4) == ChromeProxyViaHeader
  }

  /** Some entry of `vias` names the proxy. */
  predicate AnyProxyEntry(vias: seq<string>)
  {
    exists i :: 0 <= i < |vias| && IsProxyViaEntry(vias[i])
  }

  /** Whether the response came through the proxy, judged by its Via header. */
  predicate HasChromeProxyViaHeader(r: Response)
  {
    match GetHeader(r, "Via")
    case None => false
    case Some(via) => via != "" && AnyProxyEntry(ViaEntries(via))
  }

  /** A response is valid when it was not meant for the proxy or carries its Via header. */
  predicate IsValidByViaHeader(r: Response)
  {
    !ShouldHaveChromeProxyViaHeader(r) || HasChromeProxyViaHeader(r)
  }

  /**
   * A Via header written as a list of comma-free entries names the proxy
   * exactly when one of those entries, stripped of spaces, does.
   */
  lemma ViaListed(r: Response, entries: seq<string>)
    requires |entries| >= 1
    requires forall k :: 0 <= k < |entries| ==> ',' !in entries[k]
    requires GetHeader(r, "Via") == Some(Join(',', entries))
    requires Join(',', entries) != ""
    ensures HasChromeProxyViaHeader(r) <==> AnyProxyEntry(StripAll(entries, {' '}))
  {
    SplitJoin(entries, ',');
    assert ViaEntries(Join(',', entries)) == StripAll(entries, {' '});
  }

  /** An entry in the old format is recognised whatever spaces surround it. */
  lemma ViaDeprecatedPadded(r: Response, pre: string, post: string)
    requires forall j :: 0 <= j < |pre| ==> pre[j] == ' '
    requires forall j :: 0 <= j < |post| ==> post[j] == ' '
    requires GetHeader(r, "Via") == Some(pre + ChromeProxyViaHeaderDeprecated + post)
    ensures HasChromeProxyViaHeader(r)
  {
    var via := pre + ChromeProxyViaHeaderDeprecated + post;
    assert ',' !in ChromeProxyViaHeaderDeprecated;
    assert ',' !in via by {
      assert forall j :: 0 <= j < |via| ==> via[j] == ' ' || via[j] in ChromeProxyViaHeaderDeprecated;
    }
    assert Join(',', [via]) == via;
    ViaListed(r, [via]);
    StripPadding(pre, ChromeProxyViaHeaderDeprecated, post, {' '});
  }

  /**
   * The new format needs its version: a Via of just "Chrome-Compression-Proxy"
   * loses its first four characters to the version slice and is not recognised.
   */
  lemma {:induction false} ViaWithoutVersionRejected(r: Response)
    requires GetHeader(r, "Via") == Some(ChromeProxyViaHeader)
    ensures !HasChromeProxyViaHeader(r)
  {
    var via := ChromeProxyViaHeader;
    ViaListed(r, [via]);
    StripUnchanged(via, {' '});
    assert From(via, 4) != ChromeProxyViaHeader by {
      assert |From(via, 4)| == |via| - 4;
    }
  }

  /** A Via header has one entry more than it has commas, and each entry is free of spaces at its ends. */
  lemma {:induction false} ViaEntriesShape(via: string)
    ensures |ViaEntries(via)| == multiset(via)[','] + 1
    ensures forall i :: 0 <= i < |ViaEntries(via)| ==> StripEnds(ViaEntries(via)[i], {' '})
  {
    SplitCount(via, ',');
    StripAllHasEnds(Split(via, ','), {' '});
  }

  /**
   * The proxy should have handled a response exactly when its URL is neither
   * https nor data:, it is not a 304 or a cache hit, and it has some header.
   */
  lemma ShouldHaveExactly(r: Response)
    ensures ShouldHaveChromeProxyViaHeader(r) <==>
      && !(|r.url| >= 5 && r.url[..5] == "https")
      && !(|r.url| >= 5 && r.url[..5] == "data:")
      && r.status != 304 && !r.servedFromCache
      && |r.headers| > 0
  {
    if r.headers == map[] {
      assert |r.headers| == 0;
    } else {
      var k :| k in r.headers;
      assert k in r.headers.Keys;
    }
  }

  /**
   * A response is valid exactly when it was exempt from the proxy or its Via
   * header is present, non-empty and has an entry naming the proxy.
   */
  lemma IsValidExactly(r: Response)
    ensures IsValidByViaHeader(r) <==>
      || !ShouldHaveChromeProxyViaHeader(r)
      || ("Via" in r.headers && r.headers["Via"] != "" && AnyProxyEntry(ViaEntries(r.headers["Via"])))
    ensures !("Via" in r.headers && r.headers["Via"] != "") ==>
      (IsValidByViaHeader(r) <==> !ShouldHaveChromeProxyViaHeader(r))
  {
  }

  // ---------------------------------------------------------------------
  // Chrome-Proxy client type
  // ---------------------------------------------------------------------

  /**
   * The value of a "c=<type>" directive: the text after the first '=', when
   * the text before it is "c" once stripped of whitespace; None otherwise.
   */
  function ClientDirective(value: string): Option<string>
  {
    var kvp := SplitOnce(value, '=');
    if |kvp| == 2 && Strip(kvp[0], Whitespace) == "c" then Some(Strip(kvp[1], Whitespace))
    else None
  }

  /** Without an '=' a value is no directive. */
  lemma ClientDirectiveNeedsEquals(value: string)
    requires '=' !in value
    ensures ClientDirective(value) == None
  {
    SplitOnceCuts(value, '=');
  }

  /**
   * A value cut at its first '=' is a client-type directive exactly when the key
   * is "c" up to whitespace, and then names the rest stripped of whitespace.
   */
  lemma {:induction false} ClientDirectiveOf(key: string, rest: string)
    requires '=' !in key
    ensures ClientDirective(key + "=" + rest) ==
      if Strip(key, Whitespace) == "c" then Some(Strip(rest, Whitespace)) else None
  {
    var value := key + "=" + rest;
    assert value == key + (['='] + rest);
    FindAfterPiece(key, '=', rest);
    assert value[..|key|] == key && value[|key| + 1..] == rest;
  }

  /** The first client-type directive among `values`, or None when there is none. */
  function FirstClientDirective(values: seq<string>): (t: Option<string>)
    ensures t.None? <==> forall i :: 0 <= i < |values| ==> ClientDirective(values[i]).None?
    ensures t.Some? ==> exists i ::
              && 0 <= i < |values| && ClientDirective(values[i]) == t
              && forall j :: 0 <= j < i ==> ClientDirective(values[j]).None?
  {
    if values == [] then None
    else if ClientDirective(values[0]).Some? then ClientDirective(values[0])
    else
      var t := FirstClientDirective(values[1..]);
      assert forall i :: 1 <= i < |values| ==> values[i] == values[1..][i - 1];
      t
  }

  /** The comma-separated values of a Chrome-Proxy header, each stripped of whitespace. */
  function HeaderValues(header: string): seq<string>
  {
    StripAll(Split(header, ','), Whitespace)
  }

  /**
   * The client type the request's Chrome-Proxy header names: None without the
   * header, otherwise the first "c=" directive's value or None.
   */
  function GetChromeProxyClientType(r: Response): Option<string>
  {
    if "Chrome-Proxy" !in r.requestHeaders then None
    else FirstClientDirective(HeaderValues(r.requestHeaders["Chrome-Proxy"]))
  }

  /**
   * A Chrome-Proxy header holding only the directive "c=<type>" names that
   * type, as in the documented example "c=android".
   */
  lemma {:induction false} ClientTypeOfSingleDirective(r: Response, t: string)
    requires ',' !in t && '=' !in t && StripEnds(t, Whitespace)
    requires "Chrome-Proxy" in r.requestHeaders && r.requestHeaders["Chrome-Proxy"] == "c=" + t
    ensures GetChromeProxyClientType(r) == Some(t)
  {
    var h := "c=" + t;
    assert ',' !in h;
    JoinSplitSingle(h);
    assert StripEnds(h, Whitespace);
    StripUnchanged(h, Whitespace);
    assert HeaderValues(h) == [h];
    assert Find(h[1..], '=') == 0;
    assert Find(h, '=') == 1;
    assert h[..1] == "c" && h[2..] == t;
    StripUnchanged("c", Whitespace);
    StripUnchanged(t, Whitespace);
  }

  /** The documented example: a request sent with "Chrome-Proxy: c=android" is of type android. */
  lemma ClientTypeAndroid(r: Response)
    requires "Chrome-Proxy" in r.requestHeaders && r.requestHeaders["Chrome-Proxy"] == "c=android"
    ensures GetChromeProxyClientType(r) == Some("android")
  {
    ClientTypeOfSingleDirective(r, "android");
  }

  /** A header without commas is a single value. */
  lemma JoinSplitSingle(h: string)
    requires ',' !in h
    ensures Split(h, ',') == [h]
  {
    SplitJoin([h], ',');
  }

  // ---------------------------------------------------------------------
  // Checks over the responses of a page load
  // ---------------------------------------------------------------------

  /** Python truthiness of a client type: neither None nor the empty string. */
  predicate IsTruthy(t: Option<string>)
  {
    t.Some? && t.value != ""
  }

  /** The client type each response's request named, in response order. */
  function ClientTypes(responses: seq<Response>): (types: seq<Option<string>>)
    ensures |types| == |responses|
  {
    seq(|responses|, i requires 0 <= i < |responses| => GetChromeProxyClientType(responses[i]))
  }

  /** The first truthy entry of `types`, or None when no entry is truthy. */
  function FirstTruthy(types: seq<Option<string>>): (t: Option<string>)
    ensures t.None? <==> forall i :: 0 <= i < |types| ==> !IsTruthy(types[i])
    ensures t.Some? ==> exists i ::
              && 0 <= i < |types| && t == types[i] && IsTruthy(t)
              && forall j :: 0 <= j < i ==> !IsTruthy(types[j])
  {
    if types == [] then None
    else if IsTruthy(types[0]) then types[0]
    else
      var t := FirstTruthy(types[1..]);
      assert forall i :: 1 <= i < |types| ==> types[i] == types[1..][i - 1];
      t
  }

  /** The client type of the first request of the page load that names one. */
  method GetClientTypeFromRequests(responses: seq<Response>) returns (t: Option<string>)
    ensures t == FirstTruthy(ClientTypes(responses))
  {
    ghost var types := ClientTypes(responses);
    var i := 0;
    while i < |responses|
      invariant 0 <= i <= |responses|
      invariant FirstTruthy(types) == FirstTruthy(types[i..])
    {
      assert types[i..][1..] == types[i + 1..];
      var clientType := GetChromeProxyClientType(responses[i]);
      assert clientType == types[i..][0];
      if clientType.Some? && clientType.value != "" {
        return clientType;
      }
      i := i + 1;
    }
    return None;
  }

  /** How many of `responses` carry the proxy's Via header. */
  function CountViaProxy(responses: seq<Response>): nat
  {
    if responses == [] then 0
    else CountViaProxy(responses[..|responses| - 1]) + (if HasChromeProxyViaHeader(responses[|responses| - 1]) then 1 else 0)
  }

  /** How many of `responses` do not carry the proxy's Via header. */
  function CountDirect(responses: seq<Response>): nat
  {
    if responses == [] then 0
    else CountDirect(responses[..|responses| - 1]) + (if HasChromeProxyViaHeader(responses[|responses| - 1]) then 0 else 1)
  }

  /** How many of `responses` were served from the cache. */
  function CountFromCache(responses: seq<Response>): nat
  {
    if responses == [] then 0
    else CountFromCache(responses[..|responses| - 1]) + (if responses[|responses| - 1].servedFromCache then 1 else 0)
  }

  /** Every response is either through the proxy or direct, never both. */
  lemma {:induction false} ViaOrDirect(responses: seq<Response>)
    ensures CountViaProxy(responses) + CountDirect(responses) == |responses|
  {
    if responses != [] {
      ViaOrDirect(responses[..|responses| - 1]);
    }
  }


  /** The three counters reported for data saving. */
  datatype DataSaving = DataSaving(viaProxy: nat, fromCache: nat, direct: nat)

  /** Counts responses through the proxy, from the cache and direct. */
  method AddResultsForDataSaving(responses: seq<Response>) returns (d: DataSaving)
    ensures d.viaProxy == CountViaProxy(responses)
    ensures d.fromCache == CountFromCache(responses)
    ensures d.direct == CountDirect(responses)
    ensures d.viaProxy + d.direct == |responses|
  {
    var viaProxy, fromCache, direct := 0, 0, 0;
    var i := 0;
    while i < |responses|
      invariant 0 <= i <= |responses|
      invariant viaProxy == CountViaProxy(responses[..i])
      invariant fromCache == CountFromCache(responses[..i])
      invariant direct == CountDirect(responses[..i])
    {
      assert responses[..i + 1][..i] == responses[..i];
      var resp := responses[i];
      if resp.servedFromCache {
        fromCache := fromCache + 1;
      }
      if HasChromeProxyViaHeader(resp) {
        viaProxy := viaProxy + 1;
      } else {
        direct := direct + 1;
      }
      i := i + 1;
    }
    assert responses[..i] == responses;
    ViaOrDirect(responses);
    return DataSaving(viaProxy, fromCache, direct);
  }

  /** Why a check over the responses failed. */
  datatype MetricError =
    | UnexpectedVia(url: string)
    | TooFewEligible(eligible: nat, bypassed: nat)
    | NotExactlyOneBypass(eligible: nat, bypassed: nat)

  /**
   * Every response should have bypassed the proxy: fails on the first one
   * that carries the Via header, otherwise counts all of them.
   */
  method AddResultsForBypass(responses: seq<Response>) returns (r: Result<nat, MetricError>)
    ensures r.Success? <==> forall i :: 0 <= i < |responses| ==> !HasChromeProxyViaHeader(responses[i])
    ensures r.Success? ==> r.value == |responses|
    ensures r.Failure? ==> exists i ::
              && 0 <= i < |responses| && HasChromeProxyViaHeader(responses[i])
              && r.error == UnexpectedVia(responses[i].url)
              && forall j :: 0 <= j < i ==> !HasChromeProxyViaHeader(responses[j])
  {
    var bypassCount := 0;
    var i := 0;
    while i < |responses|
      invariant 0 <= i <= |responses|
      invariant bypassCount == i
      invariant forall j :: 0 <= j < i ==> !HasChromeProxyViaHeader(responses[j])
    {
      if HasChromeProxyViaHeader(responses[i]) {
        return Failure(UnexpectedVia(responses[i].url));
      }
      bypassCount := bypassCount + 1;
      i := i + 1;
    }
    return Success(bypassCount);
  }

  /** How many of `responses` the proxy should have handled. */
  function CountEligible(responses: seq<Response>): nat
  {
    if responses == [] then 0
    else CountEligible(responses[..|responses| - 1]) + (if ShouldHaveChromeProxyViaHeader(responses[|responses| - 1]) then 1 else 0)
  }

  /** How many of `responses` the proxy should have handled but that lack its Via header. */
  function CountBypassed(responses: seq<Response>): nat
  {
    if responses == [] then 0
    else
      var last := responses[|responses| - 1];
      CountBypassed(responses[..|responses| - 1]) + (if ShouldHaveChromeProxyViaHeader(last) && !HasChromeProxyViaHeader(last) then 1 else 0)
  }

  /** The bypassed responses are among the eligible ones, and they are exactly the invalid ones. */
  lemma {:induction false} BypassedAreEligible(responses: seq<Response>)
    ensures CountBypassed(responses) <= CountEligible(responses)
    ensures CountBypassed(responses) == 0 <==> forall i :: 0 <= i < |responses| ==> IsValidByViaHeader(responses[i])
  {
    if responses != [] {
      var init := responses[..|responses| - 1];
      BypassedAreEligible(init);
      assert forall i :: 0 <= i < |init| ==> init[i] == responses[i];
    }
  }

  /**
   * A cache hit is never eligible, so the eligible responses and the cache hits
   * together are at most all of them.
   */
  lemma {:induction false} CachedNotEligible(responses: seq<Response>)
    ensures CountEligible(responses) + CountFromCache(responses) <= |responses|
  {
    if responses != [] {
      CachedNotEligible(responses[..|responses| - 1]);
    }
  }

  /** The eligible and bypassed counts of a block-once page. */
  datatype BlockOnce = BlockOnce(eligible: nat, bypassed: nat)

  /**
   * Exactly one eligible response should have bypassed the proxy, out of at
   * least two: fails when fewer than two are eligible, else when the number
   * bypassed is not one.
   */
  method AddResultsForBlockOnce(responses: seq<Response>) returns (r: Result<BlockOnce, MetricError>)
    ensures r.Success? <==> CountEligible(responses) >= 2 && CountBypassed(responses) == 1
    ensures r.Success? ==> r.value == BlockOnce(CountEligible(responses), 1)
    ensures CountEligible(responses) <= 1 ==>
              r == Failure(TooFewEligible(CountEligible(responses), CountBypassed(responses)))
    ensures CountEligible(responses) >= 2 && CountBypassed(responses) != 1 ==>
              r == Failure(NotExactlyOneBypass(CountEligible(responses), CountBypassed(responses)))
  {
    var eligible, bypassCount := 0, 0;
    var i := 0;
    while i < |responses|
      invariant 0 <= i <= |responses|
      invariant eligible == CountEligible(responses[..i])
      invariant bypassCount == CountBypassed(responses[..i])
    {
      assert responses[..i + 1][..i] == responses[..i];
      var resp := responses[i];
      if ShouldHaveChromeProxyViaHeader(resp) {
        eligible := eligible + 1;
        if !HasChromeProxyViaHeader(resp) {
          bypassCount := bypassCount + 1;
        }
      }
      i := i + 1;
    }
    assert responses[..i] == responses;
    if eligible <= 1 {
      return Failure(TooFewEligible(eligible, bypassCount));
    } else if bypassCount != 1 {
      return Failure(NotExactlyOneBypass(eligible, bypassCount));
    } else {
      return Success(BlockOnce(eligible, bypassCount));
    }
  }
}
