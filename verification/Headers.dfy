/** Header validity and the hop-by-hop filters of section 7.6.1 of RFC 9110.
    Lower-casing and trimming are the host's; nothing is assumed about them. */
module Headers {
  import opened Protocol
  import opened Utf8

  const MAX_HEADER_COUNT: nat := 256
  const MAX_HEADER_NAME_BYTES: nat := 128
  const MAX_HEADER_VALUE_BYTES: nat := 16 * 1024
  const MAX_HEADERS_BYTES: nat := 128 * 1024

  datatype Header = Header(name: string, value: string)

  datatype Host = Host(lower: string -> string, trim: string -> string)

  const HOP_BY_HOP_HEADERS: set<string> :=
    {"connection", "keep-alive", "proxy-authenticate", "proxy-authorization", "te", "trailer", "transfer-encoding", "upgrade"}
  const MESSAGE_HEADERS: set<string> := {"host", "content-length"}
  const BODY_HEADERS: set<string> := {"content-encoding", "content-length"}
  const WEBSOCKET_HEADERS: set<string> :=
    {"sec-websocket-accept", "sec-websocket-extensions", "sec-websocket-key", "sec-websocket-protocol", "sec-websocket-version"}

  function Utf8Size(c: char): nat {
    var n := c as int;
    if n < 0x80 then 1 else if n < 0x800 then 2 else if n < 0x1_0000 then 3 else 4
  }

  function ByteLength(s: string): nat {
    if s == "" then 0 else ByteLength(s[..|s| - 1]) + Utf8Size(s[|s| - 1])
  }

  /** What is counted are the bytes of the UTF-8 form. */
  lemma {:induction false} ByteLengthIsUtf8(s: string)
    ensures ByteLength(s) == |EncodeAll(seq(|s|, k requires 0 <= k < |s| => s[k] as int))|
  {
    var points: seq<Scalar> := seq(|s|, k requires 0 <= k < |s| => s[k] as int);
    if s != "" {
      var n := |s| - 1;
      ByteLengthIsUtf8(s[..n]);
      assert points[..n] == seq(n, k requires 0 <= k < n => s[..n][k] as int);
      assert points == points[..n] + [points[n]];
      EncodeAllAppend(points[..n], [points[n]]);
      assert EncodeAll([points[n]]) == Encode(points[n]);
    }
  }

  predicate IsTokenChar(c: char) {
    'a' <= c <= 'z' || 'A' <= c <= 'Z' || '0' <= c <= '9' || c in "!#$%&'*+.^_`|~-"
  }

  predicate IsValidName(s: string) {
    s != "" && ByteLength(s) <= MAX_HEADER_NAME_BYTES && forall k :: 0 <= k < |s| ==> IsTokenChar(s[k])
  }

  predicate IsValidValue(s: string) {
    ByteLength(s) <= MAX_HEADER_VALUE_BYTES
    && forall k :: 0 <= k < |s| ==> (s[k] as int >= 0x20 || s[k] as int == 9) && s[k] as int != 0x7F
  }

  function TotalBytes(headers: seq<Header>): nat {
    if headers == [] then 0
    else
      var h := headers[|headers| - 1];
      TotalBytes(headers[..|headers| - 1]) + ByteLength(h.name) + ByteLength(h.value)
  }

  predicate IsValidHeader(h: Header) {
    IsValidName(h.name) && IsValidValue(h.value)
  }

  predicate AllValid(headers: seq<Header>) {
    forall h :: h in headers ==> IsValidHeader(h)
  }

  predicate IsValidHeaders(headers: seq<Header>) {
    && |headers| <= MAX_HEADER_COUNT
    && AllValid(headers)
    && TotalBytes(headers) <= MAX_HEADERS_BYTES
  }

  lemma {:induction false} TotalGrows(headers: seq<Header>, n: nat)
    requires n <= |headers|
    ensures TotalBytes(headers[..n]) <= TotalBytes(headers)
    decreases |headers| - n
  {
    if n < |headers| {
      assert headers[..n + 1][..n] == headers[..n];
      TotalGrows(headers, n + 1);
    } else {
      assert headers[..n] == headers;
    }
  }

  lemma TotalOneMore(headers: seq<Header>, k: nat)
    requires k < |headers|
    ensures TotalBytes(headers[..k + 1])
         == TotalBytes(headers[..k]) + ByteLength(headers[k].name) + ByteLength(headers[k].value)
  {
    assert headers[..k + 1][..k] == headers[..k];
  }

  lemma AllValidOneMore(headers: seq<Header>, k: nat)
    requires k < |headers| && AllValid(headers[..k]) && IsValidHeader(headers[k])
    ensures AllValid(headers[..k + 1])
  {
    assert headers[..k + 1] == headers[..k] + [headers[k]];
  }

  lemma BadEntry(headers: seq<Header>, k: nat)
    requires k < |headers| && !IsValidHeader(headers[k])
    ensures !IsValidHeaders(headers)
  {
    assert headers[k] in headers;
  }

  lemma TooLarge(headers: seq<Header>, n: nat)
    requires n <= |headers| && TotalBytes(headers[..n]) > MAX_HEADERS_BYTES
    ensures !IsValidHeaders(headers)
  {
    TotalGrows(headers, n);
  }

  /** Gives up at the first bad entry or once the running total is too large. */
  method CheckHeaders(headers: seq<Header>) returns (ok: bool)
    ensures ok == IsValidHeaders(headers)
  {
    if |headers| > MAX_HEADER_COUNT {
      return false;
    }
    var totalBytes := 0;
    for k := 0 to |headers|
      invariant totalBytes == TotalBytes(headers[..k]) <= MAX_HEADERS_BYTES
      invariant AllValid(headers[..k])
    {
      var h := headers[k];
      if !IsValidName(h.name) || !IsValidValue(h.value) {
        BadEntry(headers, k);
        return false;
      }
      totalBytes := totalBytes + ByteLength(h.name) + ByteLength(h.value);
      TotalOneMore(headers, k);
      AllValidOneMore(headers, k);
      if totalBytes > MAX_HEADERS_BYTES {
        TooLarge(headers, k + 1);
        return false;
      }
    }
    assert headers[..|headers|] == headers;
    ok := true;
  }

  // ----- filters -----

  function Split(s: string): (r: seq<string>)
    ensures r != []
  {
    if s == "" then [""]
    else
      var r := Split(s[..|s| - 1]);
      if s[|s| - 1] == ',' then r + [""] else r[..|r| - 1] + [r[|r| - 1] + [s[|s| - 1]]]
  }

  function Join(parts: seq<string>): string
    requires parts != []
  {
    if |parts| == 1 then parts[0] else Join(parts[..|parts| - 1]) + "," + parts[|parts| - 1]
  }

  /** Splitting at commas loses nothing and leaves no comma in a part. */
  lemma {:induction false} SplitAtCommas(s: string)
    ensures Join(Split(s)) == s && forall part :: part in Split(s) ==> ',' !in part
  {
    if s != "" {
      var n := |s| - 1;
      SplitAtCommas(s[..n]);
      var r, t := Split(s[..n]), Split(s);
      assert s == s[..n] + [s[n]];
      if s[n] == ',' {
        assert t[..|t| - 1] == r;
      } else {
        assert t[..|t| - 1] == r[..|r| - 1];
      }
    }
  }

  /** What one Connection value names. */
  function Named(host: Host, value: string): set<string> {
    (set t | t in Split(value) :: host.lower(host.trim(t))) - {""}
  }

  function ConnectionTokens(host: Host, headers: seq<Header>): set<string> {
    if headers == [] then {}
    else
      var h := headers[|headers| - 1];
      ConnectionTokens(host, headers[..|headers| - 1])
      + if host.lower(h.name) == "connection" then Named(host, h.value) else {}
  }

  /** The headers whose lower-cased name is not in drop. */
  function Without(host: Host, headers: seq<Header>, drop: set<string>): seq<Header> {
    if headers == [] then []
    else
      var h := headers[|headers| - 1];
      Without(host, headers[..|headers| - 1], drop) + if host.lower(h.name) in drop then [] else [h]
  }

  function FilterHopByHop(host: Host, headers: seq<Header>): Result<seq<Header>> {
    if !IsValidHeaders(headers) then Err("invalid headers")
    else Ok(Without(host, headers, HOP_BY_HOP_HEADERS + ConnectionTokens(host, headers)))
  }

  function AndWithout(host: Host, r: Result<seq<Header>>, drop: set<string>): Result<seq<Header>> {
    match r
    case Err(message) => Err(message)
    case Ok(headers) => Ok(Without(host, headers, drop))
  }

  function FilterHttpRequest(host: Host, headers: seq<Header>): Result<seq<Header>> {
    AndWithout(host, FilterHopByHop(host, headers), MESSAGE_HEADERS)
  }

  function FilterWebSocketRequest(host: Host, headers: seq<Header>): Result<seq<Header>> {
    AndWithout(host, FilterHttpRequest(host, headers), WEBSOCKET_HEADERS)
  }

  function FilterResponse(host: Host, headers: seq<Header>): Result<seq<Header>> {
    AndWithout(host, FilterHopByHop(host, headers), BODY_HEADERS)
  }

  /** r is headers at the positions at, which increase and are exactly those not dropped. */
  ghost predicate KeptAt(host: Host, headers: seq<Header>, drop: set<string>, r: seq<Header>, at: seq<nat>) {
    && |at| == |r|
    && (forall k :: 0 <= k < |at| ==> at[k] < |headers| && r[k] == headers[at[k]])
    && (forall j, k :: 0 <= j < k < |at| ==> at[j] < at[k])
    && (forall j :: 0 <= j < |headers| ==> (j in at <==> host.lower(headers[j].name) !in drop))
  }

  lemma KeptDropped(host: Host, headers: seq<Header>, h: Header, drop: set<string>, r: seq<Header>, at: seq<nat>)
    requires KeptAt(host, headers, drop, r, at) && host.lower(h.name) in drop
    ensures KeptAt(host, headers + [h], drop, r, at)
  {
    forall j | 0 <= j < |headers| + 1 ensures j in at <==> host.lower((headers + [h])[j].name) !in drop {
    }
  }

  lemma KeptTaken(host: Host, headers: seq<Header>, h: Header, drop: set<string>, r: seq<Header>, at: seq<nat>)
    requires KeptAt(host, headers, drop, r, at) && host.lower(h.name) !in drop
    ensures KeptAt(host, headers + [h], drop, r + [h], at + [|headers|])
  {
    var at' := at + [|headers|];
    forall j | 0 <= j < |headers| + 1 ensures j in at' <==> host.lower((headers + [h])[j].name) !in drop {
      if j < |headers| {
        assert j in at' <==> j in at;
      }
    }
  }

  lemma {:induction false} WithoutKeeps(host: Host, headers: seq<Header>, drop: set<string>) returns (at: seq<nat>)
    ensures KeptAt(host, headers, drop, Without(host, headers, drop), at)
  {
    if headers == [] {
      return [];
    }
    var n := |headers| - 1;
    var r := Without(host, headers[..n], drop);
    at := WithoutKeeps(host, headers[..n], drop);
    assert headers == headers[..n] + [headers[n]];
    if host.lower(headers[n].name) in drop {
      KeptDropped(host, headers[..n], headers[n], drop, r, at);
      assert r + [] == r;
    } else {
      KeptTaken(host, headers[..n], headers[n], drop, r, at);
      at := at + [n];
    }
  }

  lemma {:induction false} WithoutShrinks(host: Host, headers: seq<Header>, drop: set<string>)
    ensures var r := Without(host, headers, drop);
            && |r| <= |headers| && TotalBytes(r) <= TotalBytes(headers)
            && forall h :: h in r <==> h in headers && host.lower(h.name) !in drop
  {
    if headers != [] {
      var n := |headers| - 1;
      WithoutShrinks(host, headers[..n], drop);
      var r := Without(host, headers[..n], drop);
      assert (r + [headers[n]])[..|r|] == r;
      assert r + [] == r;
      assert headers == headers[..n] + [headers[n]];
    }
  }

  lemma {:induction false} WithoutNothing(host: Host, headers: seq<Header>, drop: set<string>)
    requires forall h :: h in headers ==> host.lower(h.name) !in drop
    ensures Without(host, headers, drop) == headers
  {
    if headers != [] {
      var n := |headers| - 1;
      WithoutNothing(host, headers[..n], drop);
      assert headers == headers[..n] + [headers[n]];
      assert headers[n] in headers;
    }
  }

  lemma {:induction false} TokensOf(host: Host, headers: seq<Header>, name: string)
    ensures name in ConnectionTokens(host, headers) <==>
            exists h :: h in headers && host.lower(h.name) == "connection" && name in Named(host, h.value)
  {
    if headers != [] {
      var n := |headers| - 1;
      TokensOf(host, headers[..n], name);
      assert headers == headers[..n] + [headers[n]];
      if exists h :: h in headers && host.lower(h.name) == "connection" && name in Named(host, h.value) {
        var h :| h in headers && host.lower(h.name) == "connection" && name in Named(host, h.value);
        assert h in headers[..n] || h == headers[n];
      }
    }
  }

  lemma {:induction false} WithoutTwice(host: Host, headers: seq<Header>, a: set<string>, b: set<string>)
    ensures Without(host, Without(host, headers, a), b) == Without(host, headers, a + b)
  {
    if headers != [] {
      var n := |headers| - 1;
      WithoutTwice(host, headers[..n], a, b);
      var r := Without(host, headers[..n], a);
      assert (r + [headers[n]])[..|r|] == r;
      assert r + [] == r;
    }
  }

  /** The four filters differ only in the names they drop besides the hop-by-hop ones. */
  datatype Filter = HopByHop | HttpRequest | WebSocketRequest | Response

  function Also(f: Filter): set<string> {
    match f
    case HopByHop => {}
    case HttpRequest => MESSAGE_HEADERS
    case WebSocketRequest => MESSAGE_HEADERS + WEBSOCKET_HEADERS
    case Response => BODY_HEADERS
  }

  function Apply(host: Host, f: Filter, headers: seq<Header>): Result<seq<Header>> {
    match f
    case HopByHop => FilterHopByHop(host, headers)
    case HttpRequest => FilterHttpRequest(host, headers)
    case WebSocketRequest => FilterWebSocketRequest(host, headers)
    case Response => FilterResponse(host, headers)
  }

  function Dropped(host: Host, f: Filter, headers: seq<Header>): set<string> {
    HOP_BY_HOP_HEADERS + ConnectionTokens(host, headers) + Also(f)
  }

  lemma FilterDrops(host: Host, f: Filter, headers: seq<Header>)
    requires IsValidHeaders(headers)
    ensures Apply(host, f, headers) == Ok(Without(host, headers, Dropped(host, f, headers)))
  {
    var hop := HOP_BY_HOP_HEADERS + ConnectionTokens(host, headers);
    assert hop + {} == hop;
    if f == HttpRequest || f == WebSocketRequest {
      WithoutTwice(host, headers, hop, MESSAGE_HEADERS);
    }
    if f == WebSocketRequest {
      WithoutTwice(host, headers, hop + MESSAGE_HEADERS, WEBSOCKET_HEADERS);
      assert hop + MESSAGE_HEADERS + WEBSOCKET_HEADERS == hop + (MESSAGE_HEADERS + WEBSOCKET_HEADERS);
    }
    if f == Response {
      WithoutTwice(host, headers, hop, BODY_HEADERS);
    }
  }

  /** Order is kept, exactly the named headers are gone, and what is left is valid; only invalid headers
      are refused. */
  lemma FilterIsSublist(host: Host, f: Filter, headers: seq<Header>) returns (at: seq<nat>)
    ensures Apply(host, f, headers).Ok? <==> IsValidHeaders(headers)
    ensures Apply(host, f, headers).Ok? ==>
              && KeptAt(host, headers, Dropped(host, f, headers), Apply(host, f, headers).value, at)
              && IsValidHeaders(Apply(host, f, headers).value)
  {
    at := WithoutKeeps(host, headers, Dropped(host, f, headers));
    if IsValidHeaders(headers) {
      FilterDrops(host, f, headers);
      WithoutShrinks(host, headers, Dropped(host, f, headers));
    }
  }

  /** A Connection header of headers names name. */
  ghost predicate IsNamed(host: Host, headers: seq<Header>, name: string) {
    exists h, token :: h in headers && host.lower(h.name) == "connection" && token in Split(h.value)
                       && host.lower(host.trim(token)) == name && name != ""
  }

  lemma NamedExactly(host: Host, headers: seq<Header>, name: string)
    ensures name in ConnectionTokens(host, headers) <==> IsNamed(host, headers, name)
  {
    TokensOf(host, headers, name);
    if name in ConnectionTokens(host, headers) {
      var h :| h in headers && host.lower(h.name) == "connection" && name in Named(host, h.value);
      var token :| token in Split(h.value) && host.lower(host.trim(token)) == name;
    }
    if IsNamed(host, headers, name) {
      var h, token :| h in headers && host.lower(h.name) == "connection" && token in Split(h.value)
                      && host.lower(host.trim(token)) == name && name != "";
      assert name in Named(host, h.value);
    }
  }

  /** The names a filter drops whatever the headers are. */
  predicate IsFixed(f: Filter, name: string) {
    || name in {"connection", "keep-alive", "proxy-authenticate", "proxy-authorization", "te", "trailer",
                "transfer-encoding", "upgrade"}
    || (name == "host" && (f.HttpRequest? || f.WebSocketRequest?))
    || (name == "content-length" && !f.HopByHop?)
    || (name == "content-encoding" && f.Response?)
    || (f.WebSocketRequest?
        && name in {"sec-websocket-accept", "sec-websocket-extensions", "sec-websocket-key",
                    "sec-websocket-protocol", "sec-websocket-version"})
  }

  lemma FixedExactly(f: Filter, name: string)
    ensures name in HOP_BY_HOP_HEADERS + Also(f) <==> IsFixed(f, name)
  {
  }

  /** Which headers a filter keeps: those with none of the fixed names, and none that a Connection header names. */
  lemma KeptExactly(host: Host, f: Filter, headers: seq<Header>, h: Header)
    requires IsValidHeaders(headers)
    ensures h in Apply(host, f, headers).value <==>
              h in headers && !IsFixed(f, host.lower(h.name)) && !IsNamed(host, headers, host.lower(h.name))
  {
    var name := host.lower(h.name);
    FilterDrops(host, f, headers);
    WithoutShrinks(host, headers, Dropped(host, f, headers));
    NamedExactly(host, headers, name);
    FixedExactly(f, name);
    assert name in Dropped(host, f, headers) <==>
           name in HOP_BY_HOP_HEADERS + Also(f) || name in ConnectionTokens(host, headers);
  }

  /** No header named by any Connection value survives, nor does a Connection header. */
  lemma NothingNamedSurvives(host: Host, f: Filter, headers: seq<Header>, kept: Header, connection: Header, token: string)
    requires IsValidHeaders(headers) && kept in Apply(host, f, headers).value
    requires connection in headers && host.lower(connection.name) == "connection"
    requires token in Split(connection.value) && host.lower(host.trim(token)) != ""
    ensures host.lower(kept.name) != host.lower(host.trim(token)) && host.lower(kept.name) != "connection"
  {
    FilterDrops(host, f, headers);
    WithoutShrinks(host, headers, Dropped(host, f, headers));
    TokensOf(host, headers, host.lower(host.trim(token)));
    assert host.lower(host.trim(token)) in Named(host, connection.value);
  }

  /** Filtering at both ends of the tunnel is filtering once. */
  lemma FilterTwice(host: Host, f: Filter, headers: seq<Header>)
    requires IsValidHeaders(headers)
    ensures Apply(host, f, Apply(host, f, headers).value) == Apply(host, f, headers)
  {
    var r := Apply(host, f, headers).value;
    var _ := FilterIsSublist(host, f, headers);
    FilterDrops(host, f, headers);
    FilterDrops(host, f, r);
    WithoutShrinks(host, headers, Dropped(host, f, headers));
    forall h | h in r ensures host.lower(h.name) !in Dropped(host, f, r) {
      TokensOf(host, r, host.lower(h.name));
    }
    WithoutNothing(host, r, Dropped(host, f, r));
  }

  /** filterHopByHopHeaders: two passes, one to collect the names and one to filter. */
  method FilterHopByHopHeaders(host: Host, headers: seq<Header>) returns (r: Result<seq<Header>>)
    ensures r == FilterHopByHop(host, headers)
  {
    var ok := CheckHeaders(headers);
    if !ok {
      return Err("invalid headers");
    }
    var connectionTokens: set<string> := {};
    for k := 0 to |headers|
      invariant connectionTokens == ConnectionTokens(host, headers[..k])
    {
      assert headers[..k + 1][..k] == headers[..k];
      if host.lower(headers[k].name) == "connection" {
        var named := CollectTokens(host, headers[k].value);
        connectionTokens := connectionTokens + named;
      }
    }
    assert headers[..|headers|] == headers;
    var kept: seq<Header> := [];
    for k := 0 to |headers|
      invariant kept == Without(host, headers[..k], HOP_BY_HOP_HEADERS + connectionTokens)
    {
      assert headers[..k + 1][..k] == headers[..k];
      var name := host.lower(headers[k].name);
      if name !in HOP_BY_HOP_HEADERS && name !in connectionTokens {
        kept := kept + [headers[k]];
      }
    }
    r := Ok(kept);
  }

  method CollectTokens(host: Host, value: string) returns (named: set<string>)
    ensures named == Named(host, value)
  {
    named := {};
    var tokens := Split(value);
    for k := 0 to |tokens|
      invariant named == (set t | t in tokens[..k] :: host.lower(host.trim(t))) - {""}
    {
      assert tokens[..k + 1] == tokens[..k] + [tokens[k]];
      var normalized := host.lower(host.trim(tokens[k]));
      if normalized != "" {
        named := named + {normalized};
      }
    }
    assert tokens[..|tokens|] == tokens;
  }
}
