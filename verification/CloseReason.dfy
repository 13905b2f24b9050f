/** normalizeCloseReason: a WebSocket close reason must leave room in a 125-byte control payload
    (section 5.5 of RFC 6455) for the 2-byte status code (section 5.5.1).
    Text is a sequence of UTF-16 code units, as JavaScript strings are. */
module CloseReason {
  import opened Protocol
  import opened Utf8

  const MAX_CLOSE_REASON_BYTES: nat := 123

  type CodeUnit = u: int | 0 <= u < 0x1_0000
  type Text = seq<CodeUnit>

  const CR: CodeUnit := 13
  const LF: CodeUnit := 10
  const SPACE: CodeUnit := 32

  predicate IsHigh(u: CodeUnit) {
    0xD800 <= u < 0xDC00
  }

  predicate IsLow(u: CodeUnit) {
    0xDC00 <= u < 0xE000
  }

  /** How many units the first code point takes: string iteration joins a surrogate pair. */
  function FirstLen(s: Text): (n: nat)
    requires s != []
    ensures 1 <= n <= |s|
  {
    if |s| >= 2 && IsHigh(s[0]) && IsLow(s[1]) then 2 else 1
  }

  /** The scalar value that a surrogate pair stands for (section 2.2 of RFC 2781). */
  function OfPair(high: int, low: int): int {
    0x1_0000 + (high - 0xD800) * 0x400 + (low - 0xDC00)
  }

  /** The scalar value of the first code point; a lone surrogate counts as U+FFFD. */
  function FirstPoint(s: Text): Scalar
    requires s != []
  {
    if FirstLen(s) == 2 then OfPair(s[0], s[1])
    else if IsSurrogate(s[0]) then 0xFFFD
    else s[0]
  }

  function FirstSize(s: Text): (n: nat)
    requires s != []
    ensures 1 <= n <= 4
  {
    |Encode(FirstPoint(s))|
  }

  function Points(s: Text): seq<Scalar> {
    if s == [] then [] else [FirstPoint(s)] + Points(s[FirstLen(s)..])
  }

  /** utf8Encode: what TextEncoder makes of a string. */
  function Utf8Encode(s: Text): bytes {
    EncodeAll(Points(s))
  }

  function ByteLength(s: Text): nat {
    |Utf8Encode(s)|
  }

  lemma FirstCounts(s: Text)
    requires s != []
    ensures ByteLength(s) == FirstSize(s) + ByteLength(s[FirstLen(s)..])
  {
    var points := Points(s);
    assert points[0] == FirstPoint(s) && points[1..] == Points(s[FirstLen(s)..]);
  }

  /** The first k units are whole code points of s. */
  predicate IsBoundary(s: Text, k: nat) {
    k == 0 || (s != [] && FirstLen(s) <= k && IsBoundary(s[FirstLen(s)..], k - FirstLen(s)))
  }

  function OneLine(s: Text): (r: Text)
    ensures |r| == |s|
    ensures forall k :: 0 <= k < |s| ==> r[k] == if s[k] == CR || s[k] == LF then SPACE else s[k]
  {
    seq(|s|, k requires 0 <= k < |s| => if s[k] == CR || s[k] == LF then SPACE else s[k])
  }

  /** Whole code points from the front while they fit into budget bytes. */
  function Fit(s: Text, budget: nat): Text {
    if s == [] || FirstSize(s) > budget then []
    else s[..FirstLen(s)] + Fit(s[FirstLen(s)..], budget - FirstSize(s))
  }

  /** None stands for an undefined or null reason. */
  function NormalizedReason(reason: Option<Text>): Text {
    match reason
    case None => []
    case Some(s) => Fit(OneLine(s), MAX_CLOSE_REASON_BYTES)
  }

  lemma FirstOfPrefix(s: Text, k: nat)
    requires s != [] && FirstLen(s) <= k <= |s|
    ensures FirstLen(s[..k]) == FirstLen(s) && FirstSize(s[..k]) == FirstSize(s)
    ensures s[..k][FirstLen(s)..] == s[FirstLen(s)..][..k - FirstLen(s)]
  {
  }

  lemma {:induction false} BoundaryInRange(s: Text, k: nat)
    requires IsBoundary(s, k)
    ensures k <= |s|
    decreases |s|
  {
    if k > 0 {
      BoundaryInRange(s[FirstLen(s)..], k - FirstLen(s));
    }
  }

  lemma {:induction false} FitIsPrefix(s: Text, budget: nat)
    ensures Fit(s, budget) <= s && IsBoundary(s, |Fit(s, budget)|) && ByteLength(Fit(s, budget)) <= budget
    decreases |s|
  {
    if s != [] && FirstSize(s) <= budget {
      var n := FirstLen(s);
      FitIsPrefix(s[n..], budget - FirstSize(s));
      var r := Fit(s, budget);
      assert s == s[..n] + s[n..];
      assert r == s[..|r|];
      FirstOfPrefix(s, |r|);
      FirstCounts(r);
      assert r[n..] == Fit(s[n..], budget - FirstSize(s));
    }
  }

  lemma {:induction false} FitIsLongest(s: Text, budget: nat, k: nat)
    requires IsBoundary(s, k) && k <= |s| && ByteLength(s[..k]) <= budget
    ensures k <= |Fit(s, budget)|
    decreases |s|
  {
    if k > 0 {
      var n := FirstLen(s);
      FirstOfPrefix(s, k);
      FirstCounts(s[..k]);
      FitIsLongest(s[n..], budget - FirstSize(s), k - n);
    }
  }

  lemma {:induction false} FitAll(s: Text, budget: nat)
    requires ByteLength(s) <= budget
    ensures Fit(s, budget) == s
    decreases |s|
  {
    if s != [] {
      FirstCounts(s);
      FitAll(s[FirstLen(s)..], budget - FirstSize(s));
    }
  }

  /** Position k lies between the two units of a surrogate pair. */
  predicate CutsPair(s: Text, k: nat) {
    0 < k < |s| && IsHigh(s[k - 1]) && IsLow(s[k])
  }

  lemma {:induction false} BoundaryExactly(s: Text, k: nat)
    requires k <= |s|
    ensures IsBoundary(s, k) <==> !CutsPair(s, k)
    decreases |s|
  {
    if k > 0 && FirstLen(s) <= k {
      BoundaryExactly(s[FirstLen(s)..], k - FirstLen(s));
    }
  }

  predicate IsLone(s: Text, k: nat)
    requires k < |s|
  {
    IsSurrogate(s[k]) && !CutsPair(s, k) && !CutsPair(s, k + 1)
  }

  /** The UTF-16 form of a scalar value (section 2.1 of RFC 2781). */
  function Units(n: Scalar): Text {
    var m: int := n;
    if m < 0x1_0000 then [m] else [0xD800 + (m - 0x1_0000) / 0x400, 0xDC00 + (m - 0x1_0000) % 0x400]
  }

  function AllUnits(ns: seq<Scalar>): Text {
    if ns == [] then [] else Units(ns[0]) + AllUnits(ns[1..])
  }

  lemma UnitsOfFirst(s: Text)
    requires s != []
    ensures Units(FirstPoint(s)) == if FirstLen(s) == 2 then s[..2] else if IsSurrogate(s[0]) then [0xFFFD] else [s[0]]
  {
  }

  lemma AllUnitsOfRest(s: Text)
    requires s != []
    ensures AllUnits(Points(s)) == Units(FirstPoint(s)) + AllUnits(Points(s[FirstLen(s)..]))
  {
    var points := Points(s);
    assert points[0] == FirstPoint(s) && points[1..] == Points(s[FirstLen(s)..]);
  }

  /** Only lone surrogates are lost on the way to scalar values, and each leaves one U+FFFD. */
  lemma {:induction false} UnitsOfPoints(s: Text)
    ensures var t := AllUnits(Points(s));
            && |t| == |s|
            && forall k :: 0 <= k < |s| ==> t[k] == if IsLone(s, k) then 0xFFFD else s[k]
    decreases |s|
  {
    if s != [] {
      var n := FirstLen(s);
      UnitsOfFirst(s);
      AllUnitsOfRest(s);
      UnitsOfPoints(s[n..]);
      forall k | n <= k < |s| ensures IsLone(s, k) == IsLone(s[n..], k - n) {
      }
    }
  }

  /** The bytes that byteLength counts are the UTF-8 form of the text: they decode to its scalar values. */
  lemma BytesDecode(s: Text)
    ensures DecodeAll(Utf8Encode(s)) == Some(Points(s))
  {
    DecodeAfterEncodeAll(Points(s));
  }

  /** On one line, within 123 bytes, no pair cut, and no longer cut would fit. */
  lemma ReasonIsLongestPrefix(s: Text)
    ensures var r := NormalizedReason(Some(s));
            && |r| <= |s| && !CutsPair(s, |r|) && |Utf8Encode(r)| <= 123
            && (forall k :: 0 <= k < |r| ==> r[k] == if s[k] == CR || s[k] == LF then SPACE else s[k])
            && (forall k :: |r| < k <= |s| && !CutsPair(s, k) ==> |Utf8Encode(OneLine(s)[..k])| > 123)
  {
    var v, r := OneLine(s), NormalizedReason(Some(s));
    FitIsPrefix(v, MAX_CLOSE_REASON_BYTES);
    BoundaryExactly(v, |r|);
    forall k | |r| < k <= |s| && !CutsPair(s, k) ensures |Utf8Encode(v[..k])| > 123 {
      BoundaryExactly(v, k);
      if ByteLength(v[..k]) <= MAX_CLOSE_REASON_BYTES {
        FitIsLongest(v, MAX_CLOSE_REASON_BYTES, k);
      }
    }
  }

  lemma NormalizingTwice(reason: Option<Text>)
    ensures NormalizedReason(Some(NormalizedReason(reason))) == NormalizedReason(reason)
  {
    var r := NormalizedReason(reason);
    if reason.Some? {
      ReasonIsLongestPrefix(reason.value);
    }
    assert OneLine(r) == r;
    FitAll(r, MAX_CLOSE_REASON_BYTES);
  }

  /** Taking one more code point. */
  lemma {:induction false} NextBoundary(s: Text, k: nat)
    requires IsBoundary(s, k) && k < |s|
    ensures var n := FirstLen(s[k..]);
            && IsBoundary(s, k + n)
            && ByteLength(s[..k + n]) == ByteLength(s[..k]) + FirstSize(s[k..])
    decreases |s|
  {
    if k == 0 {
      assert s[0..] == s && s[..0] == [];
      FirstOfPrefix(s, FirstLen(s));
      assert s[..FirstLen(s)][FirstLen(s)..] == [];
      FirstCounts(s[..FirstLen(s)]);
    } else {
      var f := FirstLen(s);
      assert s[f..][k - f..] == s[k..];
      NextBoundary(s[f..], k - f);
      FirstOfPrefix(s, k);
      FirstOfPrefix(s, k + FirstLen(s[k..]));
      FirstCounts(s[..k]);
      FirstCounts(s[..k + FirstLen(s[k..])]);
    }
  }

  /** output is what the loop has taken of value, left the bytes it may still take. */
  ghost predicate Taken(value: Text, output: Text, left: nat) {
    && output <= value && IsBoundary(value, |output|)
    && ByteLength(output) + left == MAX_CLOSE_REASON_BYTES
    && Fit(value, MAX_CLOSE_REASON_BYTES) == output + Fit(value[|output|..], left)
  }

  lemma NextTaken(value: Text, output: Text)
    requires output <= value && IsBoundary(value, |output|) && |output| < |value|
    ensures var rest := value[|output|..]; var next := output + rest[..FirstLen(rest)];
            && next <= value && IsBoundary(value, |next|) && value[|next|..] == rest[FirstLen(rest)..]
            && ByteLength(next) == ByteLength(output) + FirstSize(rest)
  {
    var k := |output|;
    var rest := value[k..];
    var next := output + rest[..FirstLen(rest)];
    NextBoundary(value, k);
    assert value[..k] == output;
    assert value[..k + FirstLen(rest)] == next;
  }

  lemma FitNext(output: Text, rest: Text, left: nat)
    requires rest != []
    ensures output + Fit(rest, left) ==
            if FirstSize(rest) > left then output
            else output + rest[..FirstLen(rest)] + Fit(rest[FirstLen(rest)..], left - FirstSize(rest))
  {
  }

  lemma TakeNext(value: Text, output: Text, left: nat)
    requires Taken(value, output, left) && |output| < |value|
    ensures var rest := value[|output|..]; var next := output + rest[..FirstLen(rest)];
            && ByteLength(next) == ByteLength(output) + FirstSize(rest)
            && if FirstSize(rest) > left then Fit(value, MAX_CLOSE_REASON_BYTES) == output
               else Taken(value, next, left - FirstSize(rest))
  {
    NextTaken(value, output);
    FitNext(output, value[|output|..], left);
  }

  method NormalizeCloseReason(reason: Option<Text>) returns (output: Text)
    ensures output == NormalizedReason(reason)
  {
    if reason.None? {
      return [];
    }
    var value := OneLine(reason.value);
    if ByteLength(value) <= MAX_CLOSE_REASON_BYTES {
      FitAll(value, MAX_CLOSE_REASON_BYTES);
      return value;
    }
    output := [];
    ghost var left := MAX_CLOSE_REASON_BYTES;
    assert value[0..] == value;
    while |output| < |value|
      invariant left >= 0 && Taken(value, output, left)
    {
      var rest := value[|output|..];
      var next := output + rest[..FirstLen(rest)];
      TakeNext(value, output, left);
      if ByteLength(next) > MAX_CLOSE_REASON_BYTES {
        break;
      }
      left := left - FirstSize(rest);
      output := next;
    }
  }
}
