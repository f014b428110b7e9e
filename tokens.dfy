/** Auth tokens: generation (`bin2hex(random_bytes(32))`), and extraction of
    the presented token from an `Authorization: Bearer <token>` header (the
    form of section 2.1 of RFC 6750) with a fall-back to the body's `token`. */
module Tokens {
  import opened Common

  newtype byte = x: int | 0 <= x < 256

  const HexAlphabet: string := "0123456789abcdef"

  predicate IsLowerHexChar(c: char) {
    ('0' <= c <= '9') || ('a' <= c <= 'f')
  }

  predicate IsLowerHex(s: string) {
    forall i :: 0 <= i < |s| ==> IsLowerHexChar(s[i])
  }

  function HexDigit(n: int): (c: char)
    requires 0 <= n < 16
    ensures IsLowerHexChar(c)
  {
    HexAlphabet[n]
  }

  /** Inverse of HexDigit on the lower-case hex alphabet. */
  function HexValue(c: char): (n: int)
    requires IsLowerHexChar(c)
    ensures 0 <= n < 16 && HexDigit(n) == c
  {
    if '0' <= c <= '9' then c as int - '0' as int else c as int - 'a' as int + 10
  }

  /** `bin2hex`: two lower-case hex digits per byte, high nibble first. */
  function Hex(bytes: seq<byte>): (r: string)
    ensures |r| == 2 * |bytes|
    ensures IsLowerHex(r)
  {
    if bytes == [] then []
    else [HexDigit(bytes[0] as int / 16), HexDigit(bytes[0] as int % 16)] + Hex(bytes[1..])
  }

  /** `hex2bin` on lower-case input: the partner of Hex. */
  function Unhex(s: string): (r: Option<seq<byte>>)
    decreases |s|
  {
    if s == [] then Some([])
    else if |s| < 2 || !IsLowerHexChar(s[0]) || !IsLowerHexChar(s[1]) then None
    else
      match Unhex(s[2..])
      case None => None
      case Some(rest) => Some([(HexValue(s[0]) * 16 + HexValue(s[1])) as byte] + rest)
  }

  lemma {:induction false} UnhexHex(bytes: seq<byte>)
    ensures Unhex(Hex(bytes)) == Some(bytes)
  {
    if bytes != [] {
      var b := bytes[0] as int;
      var hi, lo := b / 16, b % 16;
      var tail := Hex(bytes[1..]);
      var h := Hex(bytes);
      assert h == [HexDigit(hi), HexDigit(lo)] + tail;
      assert h[2..] == tail;
      UnhexHex(bytes[1..]);
      assert HexValue(h[0]) == hi && HexValue(h[1]) == lo;
      assert (hi * 16 + lo) as byte == bytes[0];
      assert Unhex(h) == Some([bytes[0]] + bytes[1..]);
      assert [bytes[0]] + bytes[1..] == bytes;
    }
  }

  /** `generateAuthToken`: the hex spelling of the 32 bytes `random_bytes(32)`
      produced for this call. */
  function GenerateAuthToken(random: seq<byte>): (token: string)
    requires |random| == 32
    ensures |token| == 64 && IsLowerHex(token)
    ensures Unhex(token) == Some(random)
  {
    UnhexHex(random);
    Hex(random)
  }

  /** Distinct random draws give distinct tokens. */
  lemma TokensDistinct(r1: seq<byte>, r2: seq<byte>)
    requires |r1| == 32 && |r2| == 32 && r1 != r2
    ensures GenerateAuthToken(r1) != GenerateAuthToken(r2)
  {
  }

  // ---- Bearer header parsing: preg_match('/Bearer\s+(.+)$/i', ...) ----

  /** A header value as PHP receives it: HTTP framing keeps line feeds out. */
  type HeaderValue = s: string | '\n' !in s

  /** PCRE's `\s`: space, tab, line feed, vertical tab, form feed, carriage return. */
  predicate IsSpace(c: char) {
    c == ' ' || c == '\t' || c == '\n' || c == '\U{0B}' || c == '\U{0C}' || c == '\r'
  }

  const BearerWord: string := "bearer"

  /** The letters `Bearer`, in any case, start at `i`. */
  predicate WordAt(h: string, i: nat) {
    i + 6 <= |h| && forall k :: 0 <= k < 6 ==> LowerChar(h[i + k]) == BearerWord[k]
  }

  /** End of the run of `\s` characters that starts at `j`. */
  function SpaceRunEnd(h: string, j: nat): (k: nat)
    requires j <= |h|
    ensures j <= k <= |h|
    ensures forall m :: j <= m < k ==> IsSpace(h[m])
    ensures k == |h| || !IsSpace(h[k])
    decreases |h| - j
  {
    if j < |h| && IsSpace(h[j]) then SpaceRunEnd(h, j + 1) else j
  }

  /** The whole pattern matches from `i`: the word, at least one `\s`, and at
      least one more character before the end. */
  predicate MatchAt(h: HeaderValue, i: nat) {
    WordAt(h, i) && i + 8 <= |h| && IsSpace(h[i + 6])
  }

  /** The capture group of a match at `i`: greedy `\s+` takes the whole run of
      spaces, and gives one back when nothing else is left for `(.+)`. */
  function CaptureAt(h: HeaderValue, i: nat): (t: string)
    requires MatchAt(h, i)
    ensures 1 <= |t| <= |h| && t == h[|h| - |t|..]
    ensures |h| - |t| >= i + 7
    ensures forall m :: i + 6 <= m < |h| - |t| ==> IsSpace(h[m])
    ensures !IsSpace(t[0]) || |t| == 1
  {
    var k := SpaceRunEnd(h, i + 6);
    if k < |h| then h[k..] else h[|h| - 1..]
  }

  /** No match starts in `[i, j)`. */
  predicate NoMatchBetween(h: HeaderValue, i: nat, j: nat) {
    forall k :: i <= k < j ==> !MatchAt(h, k)
  }

  /** The leftmost match at or after `i`: the capture of the first position
      `j >= i` where the pattern matches. */
  function BearerFrom(h: HeaderValue, i: nat): (r: Option<string>)
    requires i <= |h|
    ensures r.Some? ==> 1 <= |r.value| <= |h| && r.value == h[|h| - |r.value|..]
    ensures r.Some? <==> exists j :: i <= j <= |h| && MatchAt(h, j)
    ensures r.Some? ==> exists j :: i <= j <= |h| && MatchAt(h, j) && NoMatchBetween(h, i, j)
                                    && r.value == CaptureAt(h, j)
    decreases |h| - i
  {
    if i + 8 > |h| then None
    else if MatchAt(h, i) then
      assert NoMatchBetween(h, i, i);
      Some(CaptureAt(h, i))
    else
      var r := BearerFrom(h, i + 1);
      assert forall j :: i <= j <= |h| && MatchAt(h, j) ==> j == i || i + 1 <= j;
      assert forall j :: i + 1 <= j && NoMatchBetween(h, i + 1, j) ==> NoMatchBetween(h, i, j);
      r
  }

  /** `$matches[1]` when the header matches the pattern, and nothing otherwise. */
  function BearerToken(h: HeaderValue): (r: Option<string>)
    ensures r.Some? ==> 1 <= |r.value| <= |h| && r.value == h[|h| - |r.value|..]
    ensures r.Some? <==> exists j :: 0 <= j <= |h| && MatchAt(h, j)
    ensures r.Some? ==> exists j :: 0 <= j <= |h| && MatchAt(h, j) && NoMatchBetween(h, 0, j)
                                    && r.value == CaptureAt(h, j)
  {
    BearerFrom(h, 0)
  }

  /** The RFC 6750 form `Bearer <token>` yields exactly the token, whatever the
      token's characters after its first. */
  lemma BearerRoundTrip(t: string)
    requires |t| >= 1 && !IsSpace(t[0]) && '\n' !in t
    ensures var h: HeaderValue := "Bearer " + t; BearerToken(h) == Some(t)
  {
    var h: HeaderValue := "Bearer " + t;
    assert h[7] == t[0];
    assert SpaceRunEnd(h, 7) == 7;
    assert SpaceRunEnd(h, 6) == 7;
    assert WordAt(h, 0);
    assert MatchAt(h, 0);
    assert h[7..] == t;
  }

  /** The scheme word is matched in any case, and the whole run of white
      space after it is dropped, however long. */
  lemma {:induction false} BearerAnyCase(w: string, run: string, t: string)
    requires |w| == 6 && Lower(w) == BearerWord
    requires |run| >= 1 && forall m :: 0 <= m < |run| ==> IsSpace(run[m]) && run[m] != '\n'
    requires |t| >= 1 && !IsSpace(t[0]) && '\n' !in t
    ensures '\n' !in w + run + t
    ensures var h: HeaderValue := w + run + t; BearerToken(h) == Some(t)
  {
    assert forall k :: 0 <= k < 6 ==> LowerChar(w[k]) == BearerWord[k] by {
      forall k | 0 <= k < 6 ensures LowerChar(w[k]) == BearerWord[k] {
        assert Lower(w)[k] == LowerChar(w[k]);
      }
    }
    assert '\n' !in w by {
      forall k | 0 <= k < 6 ensures w[k] != '\n' {
        assert LowerChar(w[k]) == BearerWord[k];
      }
    }
    assert '\n' !in run by {
      forall m | 0 <= m < |run| ensures run[m] != '\n' { }
    }
    var h: HeaderValue := w + run + t;
    var e := 6 + |run|;
    assert forall k :: 0 <= k < 6 ==> h[k] == w[k];
    assert WordAt(h, 0);
    assert forall m :: 6 <= m < e ==> h[m] == run[m - 6];
    assert h[e] == t[0];
    assert MatchAt(h, 0);
    assert SpaceRunEnd(h, 6) == e;
    assert h[e..] == t;
  }

  /** A scheme word followed only by spaces still matches: `\s+` gives its last
      space back to `(.+)`, which then captures that space. The bare word does
      not match at all. */
  lemma BearerAlone()
    ensures var h: HeaderValue := "Bearer  "; BearerToken(h) == Some(" ")
    ensures var h: HeaderValue := "Bearer"; BearerToken(h) == None
  {
    var h: HeaderValue := "Bearer  ";
    assert WordAt(h, 0);
    assert SpaceRunEnd(h, 6) == 8;
  }

  /** The token-bearing parts of an API request: the `Authorization` header (if
      sent) and the JSON body's `token` field (if it is a string). */
  datatype ApiRequest = ApiRequest(authorization: Option<HeaderValue>, bodyToken: Option<string>)

  /** The token `authenticateApiRequest` goes on to hash: the header's when it is
      truthy, else the body's; nothing when the chosen value is falsy. */
  function PresentedToken(req: ApiRequest): (r: Option<string>)
    ensures r.Some? ==> Truthy(r.value)
    ensures req.authorization.Some? && BearerToken(req.authorization.value).Some?
            && Truthy(BearerToken(req.authorization.value).value)
            ==> r == BearerToken(req.authorization.value)
    ensures (req.authorization.None? || BearerToken(req.authorization.value).None?
             || !Truthy(BearerToken(req.authorization.value).value))
            ==> r == (if req.bodyToken.Some? && Truthy(req.bodyToken.value) then req.bodyToken else None)
  {
    var fromHeader := if req.authorization.Some? then BearerToken(req.authorization.value) else None;
    var token := if fromHeader.Some? && Truthy(fromHeader.value) then fromHeader else req.bodyToken;
    if token.Some? && Truthy(token.value) then token else None
  }

  /** A header token `0` is falsy in PHP, so the body's token is used instead. */
  lemma ZeroHeaderFallsBack(body: string)
    requires Truthy(body)
    ensures PresentedToken(ApiRequest(Some("Bearer 0"), Some(body))) == Some(body)
  {
    var h: HeaderValue := "Bearer 0";
    BearerRoundTrip("0");
  }
}
