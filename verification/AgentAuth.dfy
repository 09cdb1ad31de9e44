/** Signed requests between control plane and node agent: the canonical string both sides build, the
    verifier's checks in their order, and its bounded nonce cache. */
module AgentAuth {
  import opened FiniteSets
  import opened Options

  datatype Headers = Headers(timestamp: string, nonce: string, contentSha: string, signature: string)

  datatype Reason = NotConfigured | Missing | Malformed | Expired | BadSignature | Replay | ReplayCacheFull

  datatype Verdict = Accepted(contentSha: string) | Rejected(reason: Reason)

  // ---------- the canonical string ----------

  function UpperChar(c: char): char {
    if 'a' <= c <= 'z' then c - 'a' + 'A' else c
  }

  function Upper(s: string): (u: string)
    ensures |u| == |s|
  {
    seq(|s|, i requires 0 <= i < |s| => UpperChar(s[i]))
  }

  function JoinLines(parts: seq<string>): string {
    if parts == [] then "" else if |parts| == 1 then parts[0] else parts[0] + "\n" + JoinLines(parts[1..])
  }

  function Canonical(timestamp: string, nonce: string, verb: string, target: string, contentSha: string): string {
    JoinLines(["v1", timestamp, nonce, Upper(verb), target, contentSha])
  }

  predicate OneLine(s: string) {
    '\n' !in s
  }

  lemma FirstLine(a: string, b: string, x: string, y: string)
    requires OneLine(a) && OneLine(b) && a + "\n" + x == b + "\n" + y
    ensures a == b && x == y
  {
    var s, t := a + "\n" + x, b + "\n" + y;
    assert s[|a|] == '\n' && t[|b|] == '\n';
    assert forall i :: 0 <= i < |a| ==> s[i] == a[i] && a[i] in a;
    assert forall i :: 0 <= i < |b| ==> t[i] == b[i] && b[i] in b;
    assert |a| == |b|;
    assert a == s[..|a|] && b == t[..|b|];
    assert x == s[|a| + 1..] && y == t[|b| + 1..];
  }

  lemma {:induction false} JoinLinesInjective(p: seq<string>, q: seq<string>)
    requires |p| == |q| && JoinLines(p) == JoinLines(q)
    requires (forall s <- p :: OneLine(s)) && (forall s <- q :: OneLine(s))
    ensures p == q
    decreases |p|
  {
    if |p| > 1 {
      FirstLine(p[0], q[0], JoinLines(p[1..]), JoinLines(q[1..]));
      JoinLinesInjective(p[1..], q[1..]);
      assert p == [p[0]] + p[1..] && q == [q[0]] + q[1..];
    }
  }

  lemma UpperOneLine(s: string)
    requires OneLine(s)
    ensures OneLine(Upper(s))
  {
    forall i | 0 <= i < |s| ensures Upper(s)[i] != '\n' {
      assert s[i] in s;
    }
  }

  /** Two requests share a canonical string only if they agree on everything but the case of the
      method. */
  lemma CanonicalInjective(t1: string, n1: string, v1: string, g1: string, c1: string,
                           t2: string, n2: string, v2: string, g2: string, c2: string)
    requires OneLine(t1) && OneLine(n1) && OneLine(v1) && OneLine(g1) && OneLine(c1)
    requires OneLine(t2) && OneLine(n2) && OneLine(v2) && OneLine(g2) && OneLine(c2)
    ensures Canonical(t1, n1, v1, g1, c1) == Canonical(t2, n2, v2, g2, c2) <==>
            t1 == t2 && n1 == n2 && Upper(v1) == Upper(v2) && g1 == g2 && c1 == c2
  {
    var p, q := ["v1", t1, n1, Upper(v1), g1, c1], ["v1", t2, n2, Upper(v2), g2, c2];
    UpperOneLine(v1);
    UpperOneLine(v2);
    if JoinLines(p) == JoinLines(q) {
      JoinLinesInjective(p, q);
      assert p[1] == q[1] && p[2] == q[2] && p[3] == q[3] && p[4] == q[4] && p[5] == q[5];
    }
  }

  // ---------- formats ----------

  predicate IsDigit(c: char) { '0' <= c <= '9' }

  predicate IsHex(c: char) { IsDigit(c) || 'a' <= c <= 'f' }

  predicate IsNonceChar(c: char) {
    IsDigit(c) || 'a' <= c <= 'z' || 'A' <= c <= 'Z' || c == '_' || c == '-'
  }

  predicate Digits(s: string) { forall i :: 0 <= i < |s| ==> IsDigit(s[i]) }

  predicate TimestampFormat(s: string) { 1 <= |s| <= 12 && Digits(s) }

  predicate NonceFormat(s: string) { 16 <= |s| <= 128 && forall c <- s :: IsNonceChar(c) }

  predicate ShaFormat(s: string) { |s| == 64 && forall c <- s :: IsHex(c) }

  predicate SignatureFormat(s: string) { |s| == 67 && s[..3] == "v1=" && ShaFormat(s[3..]) }

  /** The 64 characters of URL-safe base64 (section 5 of RFC 4648). */
  function UrlSafeChar(d: nat): char
    requires d < 64
  {
    if d < 26 then 'A' + d as char
    else if d < 52 then 'a' + (d - 26) as char
    else if d < 62 then '0' + (d - 52) as char
    else if d == 62 then '-' else '_'
  }

  function HexChar(d: nat): char
    requires d < 16
  {
    if d < 10 then '0' + d as char else 'a' + (d - 10) as char
  }

  /** The verifier takes in a nonce exactly the characters of the encoding, and each has one meaning. */
  lemma NonceCharsExactly(c: char)
    ensures IsNonceChar(c) <==> exists d :: 0 <= d < 64 && UrlSafeChar(d) == c
    ensures forall d, e :: 0 <= d < 64 && 0 <= e < 64 && UrlSafeChar(d) == UrlSafeChar(e) ==> d == e
  {
    if IsNonceChar(c) {
      var d := if 'A' <= c <= 'Z' then (c - 'A') as int else if 'a' <= c <= 'z' then 26 + (c - 'a') as int
               else if IsDigit(c) then 52 + (c - '0') as int else if c == '-' then 62 else 63;
      assert UrlSafeChar(d) == c;
    }
  }

  lemma HexCharsExactly(c: char)
    ensures IsHex(c) <==> exists d :: 0 <= d < 16 && HexChar(d) == c
    ensures forall d, e :: 0 <= d < 16 && 0 <= e < 16 && HexChar(d) == HexChar(e) ==> d == e
  {
    if IsHex(c) {
      var d := if IsDigit(c) then (c - '0') as int else 10 + (c - 'a') as int;
      assert HexChar(d) == c;
    }
  }

  type Byte = x: int | 0 <= x < 256

  /** hexdigest(): two digits a byte. */
  function HexOf(bytes: seq<Byte>): (s: string)
    ensures |s| == 2 * |bytes|
  {
    if bytes == [] then "" else [HexChar(bytes[0] / 16), HexChar(bytes[0] % 16)] + HexOf(bytes[1..])
  }

  /** base64.urlsafe_b64encode(): four characters for three bytes, six bits each. */
  function Quad(a: Byte, b: Byte, c: Byte): string {
    [UrlSafeChar(a / 4), UrlSafeChar(a % 4 * 16 + b / 16), UrlSafeChar(b % 16 * 4 + c / 64), UrlSafeChar(c % 64)]
  }

  function UrlSafe(bytes: seq<Byte>): (s: string)
    requires |bytes| % 3 == 0
    ensures |s| == |bytes| / 3 * 4
  {
    if bytes == [] then "" else Quad(bytes[0], bytes[1], bytes[2]) + UrlSafe(bytes[3..])
  }

  lemma {:induction false} HexChars(bytes: seq<Byte>)
    ensures forall c <- HexOf(bytes) :: IsHex(c)
    decreases |bytes|
  {
    if bytes != [] {
      HexChars(bytes[1..]);
    }
  }

  /** A hash of 32 bytes has the form the verifier takes. */
  lemma HexFormat(digest: seq<Byte>)
    requires |digest| == 32
    ensures ShaFormat(HexOf(digest))
  {
    HexChars(digest);
  }

  lemma {:induction false} UrlSafeChars(bytes: seq<Byte>)
    requires |bytes| % 3 == 0
    ensures forall c <- UrlSafe(bytes) :: IsNonceChar(c)
    decreases |bytes|
  {
    if bytes != [] {
      UrlSafeChars(bytes[3..]);
    }
  }

  /** So has a nonce of 24 random bytes. */
  lemma TokenFormat(token: seq<Byte>)
    requires |token| == 24
    ensures NonceFormat(UrlSafe(token))
  {
    UrlSafeChars(token);
  }

  lemma QuadReadsBack(a: Byte, b: Byte, c: Byte, x: Byte, y: Byte, z: Byte)
    requires Quad(a, b, c) == Quad(x, y, z)
    ensures a == x && b == y && c == z
  {
    var p, q := Quad(a, b, c), Quad(x, y, z);
    NonceCharsExactly('A');
    assert p[0] == q[0] && p[1] == q[1] && p[2] == q[2] && p[3] == q[3];
  }

  /** Different random bytes make different nonces. */
  lemma {:induction false} TokensDiffer(s: seq<Byte>, t: seq<Byte>)
    requires |s| == |t| && |s| % 3 == 0 && UrlSafe(s) == UrlSafe(t)
    ensures s == t
    decreases |s|
  {
    if s != [] {
      assert UrlSafe(s)[..4] == Quad(s[0], s[1], s[2]) && UrlSafe(t)[..4] == Quad(t[0], t[1], t[2]);
      assert UrlSafe(s)[4..] == UrlSafe(s[3..]) && UrlSafe(t)[4..] == UrlSafe(t[3..]);
      QuadReadsBack(s[0], s[1], s[2], t[0], t[1], t[2]);
      TokensDiffer(s[3..], t[3..]);
      assert s == s[..3] + s[3..] && t == t[..3] + t[3..];
    }
  }

  function Digit(d: nat): char
    requires d < 10
  {
    '0' + d as char
  }

  /** str(n). */
  function Decimal(n: nat): string {
    if n < 10 then [Digit(n)] else Decimal(n / 10) + [Digit(n % 10)]
  }

  /** int(s), for digits. */
  function ValueOf(s: string): nat
    requires Digits(s)
  {
    if s == "" then 0 else ValueOf(s[..|s| - 1]) * 10 + (s[|s| - 1] - '0') as nat
  }

  function Pow10(k: nat): nat {
    if k == 0 then 1 else 10 * Pow10(k - 1)
  }

  lemma {:induction false} DecimalReadsBack(n: nat, k: nat)
    requires n < Pow10(k) && k > 0
    ensures 1 <= |Decimal(n)| <= k && Digits(Decimal(n)) && ValueOf(Decimal(n)) == n
    decreases n
  {
    if n >= 10 {
      assert k > 1;
      DecimalReadsBack(n / 10, k - 1);
      assert Decimal(n)[..|Decimal(n)| - 1] == Decimal(n / 10);
    } else {
      assert [Digit(n)][..0] == "";
    }
  }

  // ---------- signer and verifier ----------

  /** HMAC-SHA256 under one key, as 64 hex digits. */
  ghost predicate IsMac(mac: string -> string) {
    forall s :: ShaFormat(mac(s))
  }

  function Signature(mac: string -> string, timestamp: string, nonce: string, verb: string, target: string,
      contentSha: string): string {
    "v1=" + mac(Canonical(timestamp, nonce, verb, target, contentSha))
  }

  /** signed_headers, at whole second `seconds`, for a body with this hash. */
  function Signed(mac: string -> string, seconds: nat, nonce: string, verb: string, target: string,
      bodySha: string): Headers {
    Headers(Decimal(seconds), nonce, bodySha, Signature(mac, Decimal(seconds), nonce, verb, target, bodySha))
  }

  datatype Config = Config(configured: bool, mac: string -> string, skew: nat, maxNonces: nat)

  function Distance(now: real, seconds: nat): real {
    if now < seconds as real then seconds as real - now else now - seconds as real
  }

  predicate WellFormed(h: Headers) {
    TimestampFormat(h.timestamp) && NonceFormat(h.nonce) && ShaFormat(h.contentSha) && SignatureFormat(h.signature)
  }

  predicate InWindow(c: Config, h: Headers, now: real)
    requires Digits(h.timestamp)
  {
    Distance(now, ValueOf(h.timestamp)) <= c.skew as real
  }

  predicate Nameless(h: Headers) {
    h.timestamp == "" && h.nonce == "" && h.signature == ""
  }

  /** Signed with the key, for exactly this request, at about this time. */
  predicate Genuine(c: Config, h: Headers, verb: string, target: string, now: real) {
    && c.configured && WellFormed(h) && InWindow(c, h, now)
    && h.signature == Signature(c.mac, h.timestamp, h.nonce, verb, target, h.contentSha)
  }

  /** The checks before the nonce, in their order. */
  function Check(c: Config, h: Headers, verb: string, target: string, now: real): Option<Reason> {
    if !c.configured then Some(NotConfigured)
    else if Nameless(h) then Some(Missing)
    else if !WellFormed(h) then Some(Malformed)
    else if !InWindow(c, h, now) then Some(Expired)
    else if h.signature != Signature(c.mac, h.timestamp, h.nonce, verb, target, h.contentSha) then Some(BadSignature)
    else None
  }

  function Evicted(seen: map<string, real>, horizon: real): map<string, real> {
    map n | n in seen && seen[n] >= horizon :: seen[n]
  }

  /** What remembering a nonce answers, and the cache it leaves. */
  function Remembered(c: Config, seen: map<string, real>, nonce: string, now: real)
    : (Option<Reason>, map<string, real>)
  {
    if nonce in seen then (Some(Replay), seen)
    else if |seen| < c.maxNonces then (None, seen[nonce := now])
    else
      var kept := Evicted(seen, now - (2 * c.skew) as real);
      if |kept| < c.maxNonces then (None, kept[nonce := now]) else (Some(ReplayCacheFull), kept)
  }

  /** One call of verify_headers, `now` being the clock it reads before it takes the lock. */
  datatype Request = Request(headers: Headers, verb: string, target: string, now: real)

  predicate ReachesLock(c: Config, q: Request) {
    Check(c, q.headers, q.verb, q.target, q.now).None?
  }

  /** Whether a call accepts, and the cache it leaves. */
  function Handle(c: Config, seen: map<string, real>, q: Request): (bool, map<string, real>) {
    if !ReachesLock(c, q) then (false, seen)
    else
      var (refusal, next) := Remembered(c, seen, q.headers.nonce, q.now);
      (refusal.None?, next)
  }

  /** The same for a run of calls, in the order in which they take the lock. */
  function Handled(c: Config, seen: map<string, real>, requests: seq<Request>): (r: (seq<bool>, map<string, real>))
    ensures |r.0| == |requests|
    decreases |requests|
  {
    if requests == [] then ([], seen)
    else
      var before := Handled(c, seen, requests[..|requests| - 1]);
      var (accepted, next) := Handle(c, before.1, requests[|requests| - 1]);
      (before.0 + [accepted], next)
  }

  class Verifier {
    const config: Config
    var seen: map<string, real>

    constructor (config: Config)
      ensures this.config == config && seen == map[]
    {
      this.config, seen := config, map[];
    }

    method VerifyHeaders(h: Headers, verb: string, target: string, now: real) returns (v: Verdict)
      modifies this
      ensures v.Accepted? <==>
                Check(config, h, verb, target, now).None? && Remembered(config, old(seen), h.nonce, now).0.None?
      ensures v.Accepted? ==> v.contentSha == h.contentSha
      ensures v.Accepted? ==> Genuine(config, h, verb, target, now) && h.nonce !in old(seen) && h.nonce in seen
      ensures v.Accepted? ==> 1 <= |h.timestamp| <= 12 && 16 <= |h.nonce| <= 128 && |h.contentSha| == 64
      ensures v == Rejected(NotConfigured) <==> !config.configured
      ensures v == Rejected(Missing) <==> config.configured && h.timestamp == h.nonce == h.signature == ""
      ensures v == Rejected(Malformed) <==>
              config.configured && !WellFormed(h) && !(h.timestamp == h.nonce == h.signature == "")
      ensures v == Rejected(Expired) <==> config.configured && WellFormed(h) && !InWindow(config, h, now)
      ensures v == Rejected(BadSignature) <==>
              config.configured && WellFormed(h) && InWindow(config, h, now) && !Genuine(config, h, verb, target, now)
      ensures v == Rejected(Replay) <==> Genuine(config, h, verb, target, now) && h.nonce in old(seen)
      ensures v.Rejected? ==>
                v.reason == (if Check(config, h, verb, target, now).Some? then Check(config, h, verb, target, now).value
                             else Remembered(config, old(seen), h.nonce, now).0.value)
      ensures seen == if Check(config, h, verb, target, now).Some? then old(seen)
                      else Remembered(config, old(seen), h.nonce, now).1
    {
      if !config.configured {
        return Rejected(NotConfigured);
      }
      if h.timestamp == "" && h.nonce == "" && h.signature == "" {
        return Rejected(Missing);
      }
      if !TimestampFormat(h.timestamp) || !NonceFormat(h.nonce) || !ShaFormat(h.contentSha)
          || !SignatureFormat(h.signature) {
        return Rejected(Malformed);
      }
      if Distance(now, ValueOf(h.timestamp)) > config.skew as real {
        return Rejected(Expired);
      }
      var expected := Signature(config.mac, h.timestamp, h.nonce, verb, target, h.contentSha);
      if h.signature != expected {
        return Rejected(BadSignature);
      }
      var refusal := RememberNonce(h.nonce, now);
      v := if refusal.Some? then Rejected(refusal.value) else Accepted(h.contentSha);
    }

    /** The agent's requests, one after the other. */
    method Serve(requests: seq<Request>) returns (accepted: seq<bool>)
      modifies this
      ensures (accepted, seen) == Handled(config, old(seen), requests)
    {
      accepted := [];
      for i := 0 to |requests|
        invariant (accepted, seen) == Handled(config, old(seen), requests[..i])
      {
        var q := requests[i];
        var verdict := VerifyHeaders(q.headers, q.verb, q.target, q.now);
        accepted := accepted + [verdict.Accepted?];
        assert requests[..i + 1][..i] == requests[..i];
      }
      assert requests[..|requests|] == requests;
    }

    method RememberNonce(nonce: string, now: real) returns (refusal: Option<Reason>)
      modifies this
      ensures (refusal, seen) == Remembered(config, old(seen), nonce, now)
      ensures refusal == Some(Replay) <==> nonce in old(seen)
      ensures refusal.None? <==> nonce in seen && nonce !in old(seen)
      ensures refusal.None? ==> seen[nonce] == now
      ensures refusal == Some(ReplayCacheFull) <==>
              && nonce !in old(seen) && |old(seen)| >= config.maxNonces
              && |map n | n in old(seen) && old(seen)[n] >= now - (2 * config.skew) as real :: old(seen)[n]|
                 >= config.maxNonces
      ensures refusal.None? && |old(seen)| < config.maxNonces ==> seen == old(seen)[nonce := now]
    {
      if nonce in seen {
        return Some(Replay);
      }
      if |seen| >= config.maxNonces {
        seen := Evicted(seen, now - (2 * config.skew) as real);
        if |seen| >= config.maxNonces {
          return Some(ReplayCacheFull);
        }
      }
      seen := seen[nonce := now];
      refusal := None;
    }
  }

  lemma SignedReachesLock(c: Config, seconds: nat, nonce: string, verb: string, target: string, sha: string, now: real)
    requires c.configured && IsMac(c.mac) && seconds < Pow10(12) && NonceFormat(nonce) && ShaFormat(sha)
    requires Distance(now, seconds) <= c.skew as real
    ensures Check(c, Signed(c.mac, seconds, nonce, verb, target, sha), verb, target, now).None?
  {
    DecimalReadsBack(seconds, 12);
    var h := Signed(c.mac, seconds, nonce, verb, target, sha);
    assert h.signature[..3] == "v1=" && h.signature[3..] == c.mac(Canonical(h.timestamp, nonce, verb, target, sha));
  }

  /** A request signed within the window, with a fresh nonce and room in the cache, is accepted. */
  lemma SignedIsAccepted(c: Config, seconds: nat, nonce: string, verb: string, target: string, sha: string,
                         now: real, seen: map<string, real>)
    requires c.configured && IsMac(c.mac) && seconds < Pow10(12) && NonceFormat(nonce) && ShaFormat(sha)
    requires Distance(now, seconds) <= c.skew as real && nonce !in seen && |seen| < c.maxNonces
    ensures Handle(c, seen, Request(Signed(c.mac, seconds, nonce, verb, target, sha), verb, target, now)).0
  {
    SignedReachesLock(c, seconds, nonce, verb, target, sha, now);
  }

  /** The MAC is written out as hexadecimal digits of 32 bytes. */
  ghost predicate IsHexMac(mac: string -> string, hmac: string -> seq<Byte>) {
    forall s :: |hmac(s)| == 32 && mac(s) == HexOf(hmac(s))
  }

  /** What the signer really sends, a nonce of 24 random bytes and the hash of the body, is accepted
      within the window, as long as the nonce has not been seen and there is room. */
  lemma SignedHeadersAccepted(c: Config, hmac: string -> seq<Byte>, seconds: nat, token: seq<Byte>, verb: string,
                              target: string, digest: seq<Byte>, now: real, seen: map<string, real>)
    requires c.configured && IsHexMac(c.mac, hmac) && seconds < Pow10(12) && |token| == 24 && |digest| == 32
    requires -(c.skew as real) <= now - seconds as real <= c.skew as real
    requires UrlSafe(token) !in seen && |seen| < c.maxNonces
    ensures Handle(c, seen, Request(Signed(c.mac, seconds, UrlSafe(token), verb, target, HexOf(digest)), verb, target,
                                    now)).0
  {
    TokenFormat(token);
    HexFormat(digest);
    forall s ensures ShaFormat(c.mac(s)) {
      HexFormat(hmac(s));
    }
    SignedIsAccepted(c, seconds, UrlSafe(token), verb, target, HexOf(digest), now, seen);
  }

  ghost predicate NoCollision(mac: string -> string, x: string, y: string) {
    mac(x) == mac(y) ==> x == y
  }

  /** An accepted signature was made for that very request, if the two strings do not collide. */
  lemma AcceptedBindsRequest(c: Config, h: Headers, verb: string, target: string, now: real,
                             t: string, n: string, v: string, g: string, sha: string)
    requires Check(c, h, verb, target, now).None? && h.signature == Signature(c.mac, t, n, v, g, sha)
    requires NoCollision(c.mac, Canonical(h.timestamp, h.nonce, verb, target, h.contentSha), Canonical(t, n, v, g, sha))
    requires OneLine(verb) && OneLine(target) && OneLine(t) && OneLine(n) && OneLine(v) && OneLine(g) && OneLine(sha)
    ensures h.timestamp == t && h.nonce == n && Upper(verb) == Upper(v) && target == g && h.contentSha == sha
  {
    var a := Canonical(h.timestamp, h.nonce, verb, target, h.contentSha);
    var b := Canonical(t, n, v, g, sha);
    assert ("v1=" + c.mac(a))[3..] == c.mac(a) && ("v1=" + c.mac(b))[3..] == c.mac(b);
    assert OneLine(h.timestamp) && OneLine(h.nonce) && OneLine(h.contentSha);
    CanonicalInjective(h.timestamp, h.nonce, verb, target, h.contentSha, t, n, v, g, sha);
  }

  // ---------- replay ----------

  function SeenAt(c: Config, seen: map<string, real>, requests: seq<Request>, k: nat): map<string, real>
    requires k <= |requests|
  {
    Handled(c, seen, requests[..k]).1
  }

  predicate AcceptedAt(c: Config, seen: map<string, real>, requests: seq<Request>, k: nat)
    requires k < |requests|
  {
    Handled(c, seen, requests).0[k]
  }

  lemma {:induction false} RunSteps(c: Config, seen: map<string, real>, requests: seq<Request>, k: nat)
    requires k < |requests|
    ensures var (accepted, next) := Handle(c, SeenAt(c, seen, requests, k), requests[k]);
      AcceptedAt(c, seen, requests, k) == accepted && SeenAt(c, seen, requests, k + 1) == next
    decreases |requests|
  {
    assert requests[..k + 1][..k] == requests[..k];
    var init := requests[..|requests| - 1];
    if k < |init| {
      assert init[..k] == requests[..k];
      RunSteps(c, seen, init, k);
    } else {
      assert requests[..k + 1] == requests;
    }
  }

  function Nonce(q: Request): string {
    q.headers.nonce
  }

  /** A new nonce finds the cache full, with a reading more than twice the skew past `reading`. */
  predicate EvictsPast(c: Config, seen: map<string, real>, q: Request, reading: real) {
    ReachesLock(c, q) && Nonce(q) !in seen && |seen| >= c.maxNonces && q.now - (2 * c.skew) as real > reading
  }

  /** There is room for one more, if need be after an eviction. */
  predicate Room(c: Config, seen: map<string, real>, q: Request) {
    |seen| < c.maxNonces || |Evicted(seen, q.now - (2 * c.skew) as real)| < c.maxNonces
  }

  lemma HandleRemembers(c: Config, seen: map<string, real>, q: Request, n: string)
    requires n in seen
    ensures var next := Handle(c, seen, q).1;
      if EvictsPast(c, seen, q, seen[n]) then n !in next else n in next && next[n] == seen[n]
  {
  }

  lemma HandleAnswers(c: Config, seen: map<string, real>, q: Request)
    requires ReachesLock(c, q)
    ensures var (accepted, next) := Handle(c, seen, q);
      && (accepted <==> Nonce(q) !in seen && Room(c, seen, q))
      && (accepted ==> Nonce(q) in next && next[Nonce(q)] == q.now)
  {
  }

  lemma HandleForgotten(c: Config, seen: map<string, real>, q: Request, n: string)
    requires n !in seen && (Nonce(q) == n ==> !Handle(c, seen, q).0)
    ensures n !in Handle(c, seen, q).1
  {
  }

  /** One of the requests between i and j evicts what was read when request i was. */
  predicate EvictedBetween(c: Config, seen: map<string, real>, requests: seq<Request>, i: nat, j: nat)
    requires i < j <= |requests|
  {
    exists m :: i < m < j && EvictsPast(c, SeenAt(c, seen, requests, m), requests[m], requests[i].now)
  }

  /** Request i is accepted, and no other with its nonce before j. */
  predicate LastAccepted(c: Config, seen: map<string, real>, requests: seq<Request>, i: nat, j: nat)
    requires i < j <= |requests|
  {
    && AcceptedAt(c, seen, requests, i)
    && forall k :: i < k < j && Nonce(requests[k]) == Nonce(requests[i]) ==> !AcceptedAt(c, seen, requests, k)
  }

  lemma EvictedByLast(c: Config, seen: map<string, real>, requests: seq<Request>, i: nat, j: nat)
    requires i < j < |requests|
    ensures EvictedBetween(c, seen, requests, i, j + 1) <==>
            EvictedBetween(c, seen, requests, i, j)
            || EvictsPast(c, SeenAt(c, seen, requests, j), requests[j], requests[i].now)
  {
  }

  /** The nonce of request i at j: forgotten if something in between evicts it, remembered otherwise. */
  predicate KeptUntilEvicted(c: Config, seen: map<string, real>, requests: seq<Request>, i: nat, j: nat)
    requires i < j <= |requests|
  {
    var n, cache := Nonce(requests[i]), SeenAt(c, seen, requests, j);
    if EvictedBetween(c, seen, requests, i, j) then n !in cache else n in cache && cache[n] == requests[i].now
  }

  lemma KeptAtFirst(c: Config, seen: map<string, real>, requests: seq<Request>, i: nat)
    requires i < |requests| && AcceptedAt(c, seen, requests, i)
    ensures KeptUntilEvicted(c, seen, requests, i, i + 1)
  {
    RunSteps(c, seen, requests, i);
    HandleAnswers(c, SeenAt(c, seen, requests, i), requests[i]);
  }

  lemma KeptOneMore(c: Config, seen: map<string, real>, requests: seq<Request>, i: nat, k: nat)
    requires i < k < |requests| && KeptUntilEvicted(c, seen, requests, i, k)
    requires Nonce(requests[k]) == Nonce(requests[i]) ==> !AcceptedAt(c, seen, requests, k)
    ensures KeptUntilEvicted(c, seen, requests, i, k + 1)
  {
    var n, cache := Nonce(requests[i]), SeenAt(c, seen, requests, k);
    RunSteps(c, seen, requests, k);
    EvictedByLast(c, seen, requests, i, k);
    if n in cache { HandleRemembers(c, cache, requests[k], n); } else { HandleForgotten(c, cache, requests[k], n); }
  }

  lemma {:induction false} StaysUntilEvicted(c: Config, seen: map<string, real>, requests: seq<Request>, i: nat, j: nat)
    requires i < j <= |requests| && LastAccepted(c, seen, requests, i, j)
    ensures KeptUntilEvicted(c, seen, requests, i, j)
    decreases j
  {
    if j - 1 == i {
      KeptAtFirst(c, seen, requests, i);
    } else {
      StaysUntilEvicted(c, seen, requests, i, j - 1);
      KeptOneMore(c, seen, requests, i, j - 1);
    }
  }

  /** When a nonce is accepted again: exactly when, since it was last accepted, an eviction read a
      clock more than twice the skew past the reading it was remembered with, and there is room. */
  lemma DoubleAcceptanceExactly(c: Config, seen: map<string, real>, requests: seq<Request>, i: nat, j: nat)
    requires i < j < |requests| && Nonce(requests[i]) == Nonce(requests[j])
    requires LastAccepted(c, seen, requests, i, j) && ReachesLock(c, requests[j])
    ensures AcceptedAt(c, seen, requests, j) <==>
            EvictedBetween(c, seen, requests, i, j) && Room(c, SeenAt(c, seen, requests, j), requests[j])
  {
    StaysUntilEvicted(c, seen, requests, i, j);
    RunSteps(c, seen, requests, j);
    HandleAnswers(c, SeenAt(c, seen, requests, j), requests[j]);
  }

  lemma {:induction false} FindLastAccepted(c: Config, seen: map<string, real>, requests: seq<Request>, i: nat, j: nat)
    returns (l: nat)
    requires i < j <= |requests| && AcceptedAt(c, seen, requests, i)
    ensures i <= l < j && Nonce(requests[l]) == Nonce(requests[i]) && LastAccepted(c, seen, requests, l, j)
    decreases j
  {
    if j - 1 == i {
      l := i;
    } else if AcceptedAt(c, seen, requests, j - 1) && Nonce(requests[j - 1]) == Nonce(requests[i]) {
      l := j - 1;
    } else {
      l := FindLastAccepted(c, seen, requests, i, j - 1);
    }
  }

  /** Clock readings take the lock in the order in which they were read. */
  predicate ClockInOrder(c: Config, requests: seq<Request>) {
    forall i, j :: 0 <= i < j < |requests| && ReachesLock(c, requests[i]) && ReachesLock(c, requests[j]) ==>
      requests[i].now <= requests[j].now
  }

  /** In order, nothing between two requests less than two windows apart evicts the first. */
  lemma OrderedNotEvicted(c: Config, seen: map<string, real>, requests: seq<Request>, l: nat, j: nat)
    requires ClockInOrder(c, requests) && l < j < |requests|
    requires ReachesLock(c, requests[j]) && requests[j].now - (2 * c.skew) as real <= requests[l].now
    ensures !EvictedBetween(c, seen, requests, l, j)
  {
    forall m | l < m < j && ReachesLock(c, requests[m])
      ensures !EvictsPast(c, SeenAt(c, seen, requests, m), requests[m], requests[l].now)
    {
      assert requests[m].now <= requests[j].now;
    }
  }

  /** The headers carry one nonce and name one second, whoever signed them for what. */
  predicate SamePair(a: Headers, b: Headers) {
    a.nonce == b.nonce && (Digits(a.timestamp) && Digits(b.timestamp) ==> ValueOf(a.timestamp) == ValueOf(b.timestamp))
  }

  /** No pair of nonce and timestamp is accepted twice, under any signature and for any request,
      evictions or not, while the clock readings come to the lock in order. */
  lemma NeverAcceptedTwice(c: Config, seen: map<string, real>, requests: seq<Request>, i: nat, j: nat)
    requires ClockInOrder(c, requests) && i < j < |requests|
    requires SamePair(requests[i].headers, requests[j].headers)
    ensures !(AcceptedAt(c, seen, requests, i) && AcceptedAt(c, seen, requests, j))
  {
    if AcceptedAt(c, seen, requests, i) && AcceptedAt(c, seen, requests, j) {
      var l := FindLastAccepted(c, seen, requests, i, j);
      AcceptedInWindow(c, seen, requests, i);
      AcceptedInWindow(c, seen, requests, j);
      AcceptedInWindow(c, seen, requests, l);
      OrderedNotEvicted(c, seen, requests, l, j);
      DoubleAcceptanceExactly(c, seen, requests, l, j);
      assert false;
    }
  }

  lemma AcceptedInWindow(c: Config, seen: map<string, real>, requests: seq<Request>, k: nat)
    requires k < |requests| && AcceptedAt(c, seen, requests, k)
    ensures ReachesLock(c, requests[k])
    ensures var h := requests[k].headers;
      Digits(h.timestamp) && Distance(requests[k].now, ValueOf(h.timestamp)) <= c.skew as real
  {
    RunSteps(c, seen, requests, k);
  }

  lemma {:induction false} CacheBounded(c: Config, seen: map<string, real>, requests: seq<Request>)
    requires |seen| <= c.maxNonces
    ensures |Handled(c, seen, requests).1| <= c.maxNonces
    decreases |requests|
  {
    if requests != [] {
      var init, q := requests[..|requests| - 1], requests[|requests| - 1];
      CacheBounded(c, seen, init);
      EvictedSmaller(Handled(c, seen, init).1, q.now - (2 * c.skew) as real);
    }
  }

  lemma EvictedSmaller(seen: map<string, real>, horizon: real)
    ensures |Evicted(seen, horizon)| <= |seen|
  {
    SubsetSize(Evicted(seen, horizon).Keys, seen.Keys);
  }

  // ---------- a reading that takes the lock late ----------

  function NumberedNonce(k: nat): string {
    "nonce-nonce-nonce-" + Decimal(k)
  }

  /** A request for the root with an empty-looking body, signed and read at this second. */
  function Numbered(c: Config, seconds: nat, k: nat, sha: string): Request {
    Request(Signed(c.mac, seconds, NumberedNonce(k), "GET", "/", sha), "GET", "/", seconds as real)
  }

  lemma PrefixedFormat(digits: string)
    requires Digits(digits) && 1 <= |digits| <= 100
    ensures NonceFormat("nonce-nonce-nonce-" + digits)
  {
    var nonce := "nonce-nonce-nonce-" + digits;
    forall x | x in nonce ensures IsNonceChar(x) {
      var i :| 0 <= i < |nonce| && nonce[i] == x;
      if i >= 18 { assert digits[i - 18] == x; }
    }
  }

  lemma NumberedNonceFormat(k: nat)
    requires k < Pow10(100)
    ensures NonceFormat(NumberedNonce(k))
  {
    DecimalReadsBack(k, 100);
    PrefixedFormat(Decimal(k));
  }

  lemma NumberedReachesLock(c: Config, seconds: nat, k: nat, sha: string)
    requires c.configured && IsMac(c.mac) && seconds < Pow10(12) && k < Pow10(100) && ShaFormat(sha)
    ensures ReachesLock(c, Numbered(c, seconds, k, sha))
  {
    NumberedNonceFormat(k);
    SignedReachesLock(c, seconds, NumberedNonce(k), "GET", "/", sha, seconds as real);
  }

  lemma NumberedDiffer(j: nat, k: nat)
    requires j < k < Pow10(100)
    ensures NumberedNonce(j) != NumberedNonce(k)
  {
    DecimalReadsBack(j, 100);
    DecimalReadsBack(k, 100);
    assert NumberedNonce(j)[18..] == Decimal(j) && NumberedNonce(k)[18..] == Decimal(k);
  }

  function Flood(c: Config, seconds: nat, k: nat, sha: string): (requests: seq<Request>)
    ensures |requests| == k
  {
    if k == 0 then [] else Flood(c, seconds, k - 1, sha) + [Numbered(c, seconds, k - 1, sha)]
  }

  predicate NumberedBelow(n: string, k: nat) {
    exists i :: 0 <= i < k && n == NumberedNonce(i)
  }

  predicate AllTrue(accepted: seq<bool>) {
    forall i :: 0 <= i < |accepted| ==> accepted[i]
  }

  /** The cache holds the first k numbered nonces, read at this second. */
  predicate Filled(cache: map<string, real>, seconds: nat, k: nat) {
    |cache| == k && forall n <- cache :: cache[n] == seconds as real && NumberedBelow(n, k)
  }

  lemma NextNumberIsNew(cache: map<string, real>, seconds: nat, k: nat)
    requires Filled(cache, seconds, k) && k < Pow10(100)
    ensures NumberedNonce(k) !in cache
  {
    if NumberedNonce(k) in cache {
      assert NumberedBelow(NumberedNonce(k), k);
      var i :| 0 <= i < k && NumberedNonce(k) == NumberedNonce(i);
      NumberedDiffer(i, k);
      assert false;
    }
  }

  lemma FilledGrows(cache: map<string, real>, seconds: nat, k: nat)
    requires Filled(cache, seconds, k) && k < Pow10(100)
    ensures NumberedNonce(k) !in cache && Filled(cache[NumberedNonce(k) := seconds as real], seconds, k + 1)
  {
    NextNumberIsNew(cache, seconds, k);
    var next := cache[NumberedNonce(k) := seconds as real];
    forall n | n in next ensures next[n] == seconds as real && NumberedBelow(n, k + 1) {
      if n in cache && n != NumberedNonce(k) {
        assert NumberedBelow(n, k);
        var i :| 0 <= i < k && n == NumberedNonce(i);
        assert 0 <= i < k + 1 && n == NumberedNonce(i);
      }
    }
  }

  lemma FloodTakesOne(c: Config, seconds: nat, k: nat, sha: string, cache: map<string, real>)
    requires c.configured && IsMac(c.mac) && seconds < Pow10(12) && k < Pow10(100) && ShaFormat(sha)
    requires Filled(cache, seconds, k) && k < c.maxNonces
    ensures Handle(c, cache, Numbered(c, seconds, k, sha)) == (true, cache[NumberedNonce(k) := seconds as real])
  {
    NumberedReachesLock(c, seconds, k, sha);
    NextNumberIsNew(cache, seconds, k);
  }

  lemma RunOneMore(c: Config, requests: seq<Request>, q: Request)
    ensures var before := Handled(c, map[], requests);
      Handled(c, map[], requests + [q]) == (before.0 + [Handle(c, before.1, q).0], Handle(c, before.1, q).1)
  {
    assert (requests + [q])[..|requests|] == requests;
  }

  lemma AcceptsOneMore(c: Config, requests: seq<Request>, q: Request, next: map<string, real>)
    requires AllTrue(Handled(c, map[], requests).0) && Handle(c, Handled(c, map[], requests).1, q) == (true, next)
    ensures AllTrue(Handled(c, map[], requests + [q]).0) && Handled(c, map[], requests + [q]).1 == next
  {
    RunOneMore(c, requests, q);
  }

  /** As many different requests as the cache takes, all signed and read in one second. */
  lemma {:induction false} FloodFills(c: Config, seconds: nat, k: nat, sha: string)
    requires c.configured && IsMac(c.mac) && seconds < Pow10(12) && k <= c.maxNonces && k <= Pow10(100)
        && ShaFormat(sha)
    ensures var (accepted, cache) := Handled(c, map[], Flood(c, seconds, k, sha));
      AllTrue(accepted) && Filled(cache, seconds, k)
    decreases k
  {
    if k > 0 {
      var flood, q := Flood(c, seconds, k - 1, sha), Numbered(c, seconds, k - 1, sha);
      var cache := Handled(c, map[], flood).1;
      FloodFills(c, seconds, k - 1, sha);
      FloodTakesOne(c, seconds, k - 1, sha, cache);
      FilledGrows(cache, seconds, k - 1);
      AcceptsOneMore(c, flood, q, cache[NumberedNonce(k - 1) := seconds as real]);
    }
  }

  /** A full cache of readings at second 0, then one request two windows later, then the first request
      again, its reading taken at second 0: the eviction in between has forgotten it. */
  function LateRun(c: Config, sha: string): seq<Request> {
    Flood(c, 0, c.maxNonces, sha) + [Numbered(c, 2 * c.skew + 1, c.maxNonces, sha)] + [Numbered(c, 0, 0, sha)]
  }

  lemma EvictionEmpties(c: Config, cache: map<string, real>, sha: string)
    requires c.configured && IsMac(c.mac) && 2 * c.skew + 1 < Pow10(12) && 1 <= c.maxNonces < Pow10(100)
        && ShaFormat(sha)
    requires Filled(cache, 0, c.maxNonces)
    ensures Handle(c, cache, Numbered(c, 2 * c.skew + 1, c.maxNonces, sha))
         == (true, map[NumberedNonce(c.maxNonces) := (2 * c.skew + 1) as real])
  {
    var q := Numbered(c, 2 * c.skew + 1, c.maxNonces, sha);
    NumberedReachesLock(c, 2 * c.skew + 1, c.maxNonces, sha);
    NextNumberIsNew(cache, 0, c.maxNonces);
    assert q.now - (2 * c.skew) as real == 1.0;
    assert Evicted(cache, 1.0) == map[];
  }

  lemma AcceptedAgain(c: Config, cache: map<string, real>, sha: string)
    requires c.configured && IsMac(c.mac) && 2 <= c.maxNonces < Pow10(100) && ShaFormat(sha)
    requires cache == map[NumberedNonce(c.maxNonces) := (2 * c.skew + 1) as real]
    ensures Handle(c, cache, Numbered(c, 0, 0, sha)).0
  {
    NumberedDiffer(0, c.maxNonces);
    NumberedReachesLock(c, 0, 0, sha);
  }

  lemma {:induction false} FloodAt(c: Config, seconds: nat, n: nat, sha: string, k: nat)
    requires k < n
    ensures Flood(c, seconds, n, sha)[k] == Numbered(c, seconds, k, sha)
    decreases n
  {
    if k < n - 1 { FloodAt(c, seconds, n - 1, sha, k); }
  }

  lemma LateRunAccepted(c: Config, sha: string, flood: seq<Request>, late: Request, again: Request)
    requires c.configured && IsMac(c.mac) && ShaFormat(sha)
    requires 2 * c.skew + 1 < Pow10(12) && 2 <= c.maxNonces < Pow10(100)
    requires flood == Flood(c, 0, c.maxNonces, sha) && late == Numbered(c, 2 * c.skew + 1, c.maxNonces, sha)
    requires again == Numbered(c, 0, 0, sha)
    ensures AllTrue(Handled(c, map[], flood + [late] + [again]).0)
  {
    var only := map[NumberedNonce(c.maxNonces) := (2 * c.skew + 1) as real];
    FloodFills(c, 0, c.maxNonces, sha);
    EvictionEmpties(c, Handled(c, map[], flood).1, sha);
    AcceptsOneMore(c, flood, late, only);
    AcceptedAgain(c, only, sha);
    AcceptsOneMore(c, flood + [late], again, Handle(c, only, again).1);
  }

  /** The clock is read before the lock is taken.  Whatever the skew, and for every cache that takes
      two nonces, there is a run of signed requests, every one accepted, in which the first and the
      last are the very same request with the same reading. */
  lemma LateLockAcceptsTwice(c: Config, sha: string)
    requires c.configured && IsMac(c.mac) && ShaFormat(sha)
    requires 2 * c.skew + 1 < Pow10(12) && 2 <= c.maxNonces < Pow10(100)
    ensures var run := LateRun(c, sha);
      |run| == c.maxNonces + 2 && run[0] == run[|run| - 1] && AllTrue(Handled(c, map[], run).0)
  {
    var n := c.maxNonces;
    LateRunAccepted(c, sha, Flood(c, 0, n, sha), Numbered(c, 2 * c.skew + 1, n, sha), Numbered(c, 0, 0, sha));
    FloodAt(c, 0, n, sha, 0);
  }
}
