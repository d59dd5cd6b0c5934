/** The backend's request guards: a sliding-window rate limiter per client
    address, a ban list fed by raw-body and header checks, the WSGI
    middleware that applies them before a request reaches the routes, and
    the CSRF token format. */
module Security {
  import opened Common
  import opened Seqs
  import opened Text

  /** `RATE_LIMIT_MINUTES` = 5, in microseconds, the resolution of the
      `datetime` timestamps. */
  const Window: int := 300_000_000
  /** `MAX_REQUESTS`. */
  const MaxRequests: int := 10

  /** `MALICIOUS_PATTERNS`. The entries are raw byte literals (`rb'...'`),
      so a `\x` inside them is not an escape: `rb'\x16\x03\x01'` is the
      twelve ASCII characters backslash, `x`, `1`, `6`, ... and not the three
      bytes of a TLS record header. Only `Cookie:` is literal text either way. */
  const MaliciousPatterns: seq<seq<byte>> := [
    // \x03\x00\x00
    [92, 120, 48, 51, 92, 120, 48, 48, 92, 120, 48, 48],
    // \x16\x03\x01
    [92, 120, 49, 54, 92, 120, 48, 51, 92, 120, 48, 49],
    // Cookie:
    [67, 111, 111, 107, 105, 101, 58],
    // \xc0\x14\xc0
    [92, 120, 99, 48, 92, 120, 49, 52, 92, 120, 99, 48]
  ]

  /** `SUSPICIOUS_HEADERS`: the user agents of well-known scanners. */
  const SuspiciousHeaders: seq<string> := [
    "sqlmap", "acunetix", "nikto", "nmap", "masscan", "zmeu", "dirbuster", "gobuster", "burp"
  ]

  /** Some malicious pattern occurs contiguously in the raw body. */
  predicate HasMaliciousPattern(raw: seq<byte>) {
    exists i :: 0 <= i < |MaliciousPatterns| && Contains(raw, MaliciousPatterns[i])
  }

  /** Every pattern but `Cookie:` begins with a backslash, so a body is
      refused for its content only when it holds a backslash or a `C`: in
      particular a binary TLS handshake or any other body without those two
      characters passes the raw-body check. */
  lemma MaliciousNeedsBackslashOrC(raw: seq<byte>)
    ensures HasMaliciousPattern(raw) ==> 92 in raw || 67 in raw
  {
    if HasMaliciousPattern(raw) {
      var i :| 0 <= i < |MaliciousPatterns| && Contains(raw, MaliciousPatterns[i]);
      ContainsHead(raw, MaliciousPatterns[i]);
    }
  }

  /** The record header of a TLS 1.0 handshake, `16 03 01`, followed by any
      bytes below 0x40 (lengths and the handshake type of a short record),
      is not malicious as the patterns are written. */
  lemma TlsHeaderPasses(rest: seq<byte>)
    requires forall k :: 0 <= k < |rest| ==> rest[k] < 0x40
    ensures !HasMaliciousPattern([0x16, 0x03, 0x01] + rest)
  {
    var raw: seq<byte> := [0x16, 0x03, 0x01] + rest;
    assert forall k :: 0 <= k < |raw| ==> raw[k] < 0x40 by {
      forall k | 0 <= k < |raw| ensures raw[k] < 0x40 {
        if k >= 3 {
          assert raw[k] == rest[k - 3];
        }
      }
    }
    MaliciousNeedsBackslashOrC(raw);
  }

  /** A body that holds one of the pattern texts anywhere, such as the
      twelve characters `\x16\x03\x01` typed into a form, is malicious. */
  lemma PatternTextIsMalicious(before: seq<byte>, i: int, after: seq<byte>)
    requires 0 <= i < |MaliciousPatterns|
    ensures HasMaliciousPattern(before + MaliciousPatterns[i] + after)
  {
    var raw := before + MaliciousPatterns[i] + after;
    assert raw[|before|..|before| + |MaliciousPatterns[i]|] == MaliciousPatterns[i];
    ContainsAt(raw, MaliciousPatterns[i], |before|);
  }

  /** Some scanner name occurs in the lower-cased headers. */
  predicate HasSuspiciousHeader(headers: string) {
    exists i :: 0 <= i < |SuspiciousHeaders| && Contains(Lower(headers), SuspiciousHeaders[i])
  }

  /** The timestamps of `history` that are younger than the window at `now`,
      in their order (the list comprehension of `is_rate_limited`). */
  function Recent(history: seq<int>, now: int): seq<int> {
    Filter(history, (t: int) => now - t < Window)
  }

  /** Recent keeps exactly the timestamps younger than the window, and no more of them. */
  lemma RecentSpec(history: seq<int>, now: int, t: int)
    ensures t in Recent(history, now) <==> t in history && now - t < Window
    ensures |Recent(history, now)| <= |history|
  {
    var r := Recent(history, now);
    if t in r {
      var k :| 0 <= k < |r| && r[k] == t;
    }
    if t in history && now - t < Window {
      var k :| 0 <= k < |history| && history[k] == t;
    }
  }

  /** The history a limiter keeps for an address once a request at `now`
      is recorded: the recent timestamps and `now`. */
  function Recorded(history: seq<int>, now: int): (r: seq<int>)
    ensures 0 < |r| <= |history| + 1 && r[|r| - 1] == now
    ensures forall k :: 0 <= k < |r| ==> now - r[k] < Window
  {
    Recent(history, now) + [now]
  }

  /** A request is refused as too many exactly when, counting it, more than
      ten requests from the address fall within the window. */
  lemma RecordedCount(history: seq<int>, now: int)
    ensures |Recorded(history, now)| > MaxRequests <==> |Recent(history, now)| >= MaxRequests
  {
  }

  /** Every character of s is a lower-case hexadecimal digit. */
  predicate AllLowerHex(s: string) {
    forall k :: 0 <= k < |s| ==> IsLowerHex(s[k])
  }

  /** `verify_csrf_token`: false for an empty token, otherwise 64
      characters each among `'0123456789abcdef'`. */
  function VerifyCsrfToken(token: string): (ok: bool)
    ensures ok <==> |token| == 64 && AllLowerHex(token)
  {
    if token == [] then false
    else
      var ok := |token| == 64 && forall c :: c in token ==> c in HexDigits;
      assert ok <==> |token| == 64 && AllLowerHex(token) by {
        forall c | c in token ensures IsLowerHex(c) <==> c in HexDigits {
          IsLowerHexIff(c);
        }
      }
      ok
  }

  /** Python `bytes.hex()`: two lower-case hexadecimal digits per byte,
      high nibble first. */
  function HexEncode(bytes: seq<byte>): (s: string)
    ensures |s| == 2 * |bytes|
    decreases |bytes|
  {
    if bytes == [] then []
    else [HexDigit(bytes[0] as int / 16), HexDigit(bytes[0] as int % 16)] + HexEncode(bytes[1..])
  }

  /** HexEncode writes only lower-case hexadecimal digits. */
  lemma {:induction false} HexEncodeDigits(bytes: seq<byte>)
    ensures AllLowerHex(HexEncode(bytes))
    decreases |bytes|
  {
    if bytes != [] {
      HexEncodeDigits(bytes[1..]);
      var head := [HexDigit(bytes[0] as int / 16), HexDigit(bytes[0] as int % 16)];
      var s := HexEncode(bytes);
      assert s == head + HexEncode(bytes[1..]);
      forall k | 0 <= k < |s| ensures IsLowerHex(s[k]) {
        if k >= 2 {
          assert s[k] == HexEncode(bytes[1..])[k - 2];
        }
      }
    }
  }

  /** The value of a hexadecimal digit, 0 for any other character. */
  function Nibble(c: char): (n: int)
    ensures 0 <= n < 16
    ensures IsLowerHex(c) ==> n == HexValue(c)
  {
    if IsLowerHex(c) then HexValue(c) else 0
  }

  /** The bytes a string of hexadecimal digit pairs spells (a last
      unpaired digit is ignored). */
  function HexDecode(s: string): seq<byte>
    decreases |s|
  {
    if |s| < 2 then []
    else [(16 * Nibble(s[0]) + Nibble(s[1])) as byte] + HexDecode(s[2..])
  }

  /** Encoding loses nothing: the digits decode to the bytes they came from. */
  lemma {:induction false} HexRoundTrip(bytes: seq<byte>)
    ensures AllLowerHex(HexEncode(bytes))
    ensures HexDecode(HexEncode(bytes)) == bytes
    decreases |bytes|
  {
    HexEncodeDigits(bytes);
    if bytes != [] {
      EncodeStep(bytes);
      HexRoundTrip(bytes[1..]);
      assert bytes == [bytes[0]] + bytes[1..];
    }
  }

  /** Decoding the digits of a byte sequence gives its first byte back,
      then what the digits of the rest decode to. */
  lemma EncodeStep(bytes: seq<byte>)
    requires bytes != []
    ensures HexDecode(HexEncode(bytes)) == [bytes[0]] + HexDecode(HexEncode(bytes[1..]))
  {
    var hi, lo := ByteDigits(bytes[0]);
    var rest := HexEncode(bytes[1..]);
    assert HexEncode(bytes) == [hi, lo] + rest;
    DecodeStep(hi, lo, rest);
  }

  /** The two digits HexEncode writes for b, and the byte they spell. */
  lemma ByteDigits(b: byte) returns (hi: char, lo: char)
    ensures hi == HexDigit(b as int / 16) && lo == HexDigit(b as int % 16)
    ensures (16 * Nibble(hi) + Nibble(lo)) as byte == b
  {
    hi, lo := HexDigit(b as int / 16), HexDigit(b as int % 16);
    HexValueOfDigit(b as int / 16);
    HexValueOfDigit(b as int % 16);
  }

  /** Decoding takes the first pair of digits and then the rest. */
  lemma DecodeStep(hi: char, lo: char, rest: string)
    ensures HexDecode([hi, lo] + rest) == [(16 * Nibble(hi) + Nibble(lo)) as byte] + HexDecode(rest)
  {
    var s := [hi, lo] + rest;
    assert s[2..] == rest;
  }

  /** `generate_csrf_token`: `secrets.token_hex(32)`, here the hex of the
      random bytes it is given. */
  function GenerateCsrfToken(random: seq<byte>): string {
    HexEncode(random)
  }

  /** A token made from 32 random bytes always passes the check, and
      different bytes give different tokens. */
  lemma GeneratedTokenVerifies(random: seq<byte>, other: seq<byte>)
    requires |random| == 32
    ensures VerifyCsrfToken(GenerateCsrfToken(random))
    ensures other != random ==> GenerateCsrfToken(other) != GenerateCsrfToken(random)
  {
    HexEncodeDigits(random);
    if other != random && GenerateCsrfToken(other) == GenerateCsrfToken(random) {
      HexRoundTrip(random);
      HexRoundTrip(other);
      assert false;
    }
  }

  /** `check_suspicious_headers`: the scanner names are tried in turn
      against the lower-cased headers. */
  method CheckSuspiciousHeaders(headers: string) returns (suspicious: bool)
    ensures suspicious <==> HasSuspiciousHeader(headers)
  {
    for i := 0 to |SuspiciousHeaders|
      invariant forall k :: 0 <= k < i ==> !Contains(Lower(headers), SuspiciousHeaders[k])
    {
      if Contains(Lower(headers), SuspiciousHeaders[i]) {
        return true;
      }
    }
    return false;
  }

  /** What the middleware hands on: a refusal (the `Access denied` answer
      it builds with `jsonify`) or the request, its body re-wrapped for the
      application. */
  datatype Passage = AccessDenied | PassOn(body: seq<byte>)

  /** The guard state of one server process: `ip_request_count` and `BANNED_IPS`. */
  class Guard {
    var requests: map<string, seq<int>>
    var banned: set<string>

    /** `ip_request_count[ip]`: a `defaultdict(list)`, empty for an unseen address. */
    function History(ip: string): seq<int>
      reads this`requests
    {
      if ip in requests then requests[ip] else []
    }

    /** `load_banned_ips` at start-up adds the stored addresses. */
    constructor (stored: set<string>)
      ensures requests == map[] && banned == stored
    {
      requests := map[];
      banned := stored;
    }

    /** `load_banned_ips`: the addresses read from the ban file join the
        set (a missing file adds none). */
    method LoadBannedIps(stored: set<string>)
      modifies this`banned
      ensures banned == old(banned) + stored
    {
      banned := banned + stored;
    }

    /** `is_rate_limited`: a banned address is limited and its history left
        alone; otherwise the history keeps its recent timestamps plus `now`
        and the request is limited when that makes more than ten. */
    method IsRateLimited(ip: string, now: int) returns (limited: bool)
      modifies this`requests
      ensures ip in banned ==> limited && requests == old(requests)
      ensures ip !in banned ==>
        requests == old(requests)[ip := Recorded(old(History(ip)), now)] &&
        (limited <==> |Recorded(old(History(ip)), now)| > MaxRequests)
    {
      if ip in banned {
        return true;
      }
      var kept := Recent(History(ip), now);
      requests := requests[ip := kept];
      requests := requests[ip := requests[ip] + [now]];
      limited := |requests[ip]| > MaxRequests;
    }

    /** `check_raw_request`: the patterns are tried in turn; the first one
        found in the body bans the address. */
    method CheckRawRequest(raw: seq<byte>, ip: string) returns (malicious: bool)
      modifies this`banned
      ensures malicious <==> HasMaliciousPattern(raw)
      ensures malicious ==> banned == old(banned) + {ip}
      ensures !malicious ==> banned == old(banned)
    {
      for i := 0 to |MaliciousPatterns|
        invariant forall k :: 0 <= k < i ==> !Contains(raw, MaliciousPatterns[k])
        invariant banned == old(banned)
      {
        if Contains(raw, MaliciousPatterns[i]) {
          banned := banned + {ip};
          return true;
        }
      }
      return false;
    }

    /** `MaliciousRequestMiddleware.__call__`; `body` is None when reading
        `wsgi.input` raises. A banned address is refused before the body
        is read; a body that cannot be read or holds a malicious pattern
        bans the address and is refused; any other is passed on unchanged. */
    method Middleware(ip: string, body: Option<seq<byte>>) returns (r: Passage)
      modifies this`banned
      ensures ip in old(banned) ==> r == AccessDenied && banned == old(banned)
      ensures ip !in old(banned) && body.None? ==> r == AccessDenied && banned == old(banned) + {ip}
      ensures ip !in old(banned) && body.Some? ==>
        (HasMaliciousPattern(body.value) ==> r == AccessDenied && banned == old(banned) + {ip}) &&
        (!HasMaliciousPattern(body.value) ==> r == PassOn(body.value) && banned == old(banned))
    {
      if ip in banned {
        return AccessDenied;
      }
      if body.None? {
        banned := banned + {ip};
        return AccessDenied;
      }
      var malicious := CheckRawRequest(body.value, ip);
      if malicious {
        return AccessDenied;
      }
      r := PassOn(body.value);
    }
  }

  /** After any request of an address that is not banned, every timestamp
      kept for it is within the window, and the other addresses' histories
      are untouched. */
  lemma RateLimitKeepsWindow(requests: map<string, seq<int>>, ip: string, other: string, now: int, history: seq<int>)
    requires ip != other
    ensures var after := requests[ip := Recorded(history, now)];
      (forall k :: 0 <= k < |after[ip]| ==> now - after[ip][k] < Window) &&
      (other in after <==> other in requests) &&
      (other in requests ==> after[other] == requests[other])
  {
  }
}
