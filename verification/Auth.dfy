/** Request signing. The keyed hash is an arbitrary function of secret and message. */
module Auth {
  import opened Wrappers
  import Decimal

  const HEADER_TIMESTAMP := "X-Orchestrator-Timestamp"
  const HEADER_SIGNATURE := "X-Orchestrator-Signature"
  const MAX_CLOCK_SKEW: int := 30_000_000_000  // nanoseconds
  const SECOND: int := 1_000_000_000

  type Mac = (string, string) -> string

  // int64 arithmetic wraps around.
  function Wrap(x: int): (r: int)
    ensures Decimal.MIN_INT64 <= r <= Decimal.MAX_INT64
  {
    (x - Decimal.MIN_INT64) % 0x1_0000_0000_0000_0000 + Decimal.MIN_INT64
  }

  predicate Int64(x: int) { Decimal.MIN_INT64 <= x <= Decimal.MAX_INT64 }

  // ----------------------------------------------------------------- the message

  function Message(verb: string, path: string, timestamp: int): string
  {
    verb + ":" + path + ":" + Decimal.Format(timestamp)
  }

  predicate ColonFree(s: string) { forall i :: 0 <= i < |s| ==> s[i] != ':' }

  lemma LastColonSplits(x: string, f: string, x': string, f': string)
    requires ColonFree(f) && ColonFree(f') && x + ":" + f == x' + ":" + f'
    ensures x == x' && f == f'
  {
    var s := x + ":" + f;
    assert s[|x|] == ':' && s[|x'|] == ':';
    assert forall k :: |x| < k < |s| ==> s[k] == f[k - |x| - 1];
    assert forall k :: |x'| < k < |s| ==> s[k] == f'[k - |x'| - 1];
    assert |x| == |x'|;
    assert s[..|x|] == x && s[..|x'|] == x' && s[|x| + 1..] == f && s[|x'| + 1..] == f';
  }

  lemma FirstColonSplits(v: string, p: string, v': string, p': string)
    requires ColonFree(v) && ColonFree(v') && v + ":" + p == v' + ":" + p'
    ensures v == v' && p == p'
  {
    var s := v + ":" + p;
    assert s[|v|] == ':' && s[|v'|] == ':';
    assert forall i :: 0 <= i < |v| ==> s[i] == v[i];
    assert forall i :: 0 <= i < |v'| ==> s[i] == v'[i];
    assert |v| == |v'|;
    assert s[..|v|] == v && s[..|v'|] == v' && s[|v| + 1..] == p && s[|v'| + 1..] == p';
  }

  lemma TimestampIsColonFree(t: int)
    ensures ColonFree(Decimal.Format(t))
  {
    Decimal.FormatChars(t);
  }

  // For all inputs: two messages agree exactly when the timestamps do and the
  // "method:path" parts read the same.
  lemma MessagesEqualIff(v: string, p: string, t: int, v': string, p': string, t': int)
    ensures Message(v, p, t) == Message(v', p', t') <==> t == t' && v + ":" + p == v' + ":" + p'
  {
    if Message(v, p, t) == Message(v', p', t') {
      TimestampIsColonFree(t);
      TimestampIsColonFree(t');
      LastColonSplits(v + ":" + p, Decimal.Format(t), v' + ":" + p', Decimal.Format(t'));
      Decimal.FormatInjective(t, t');
    }
  }

  // Hence injective for methods that are tokens, which hold no colon.
  lemma MessageInjective(v: string, p: string, t: int, v': string, p': string, t': int)
    requires ColonFree(v) && ColonFree(v') && Message(v, p, t) == Message(v', p', t')
    ensures v == v' && p == p' && t == t'
  {
    MessagesEqualIff(v, p, t, v', p', t');
    FirstColonSplits(v, p, v', p');
  }

  // ... and not beyond: a colon in the method can move into the path.
  lemma ColonInMethodCollides(a: string, b: string, c: string, t: int)
    ensures Message(a + ":" + b, c, t) == Message(a, b + ":" + c, t)
  {
    assert a + ":" + b + ":" + c == a + ":" + (b + ":" + c);
    MessagesEqualIff(a + ":" + b, c, t, a, b + ":" + c, t);
  }

  // ------------------------------------------------------------------- the window

  function Distance(a: int, b: int): nat { if a < b then b - a else a - b }

  // The absolute difference as int64 arithmetic computes it.
  function Skew(now: int, timestamp: int): int
  {
    var diff := Wrap(now - timestamp);
    if diff < 0 then Wrap(-diff) else diff
  }

  predicate SmallSkew(skew: int) { Wrap(skew * SECOND) <= MAX_CLOCK_SKEW }

  // The comparison as int64 nanoseconds compute it.
  predicate InWindow(now: int, timestamp: int) { SmallSkew(Skew(now, timestamp)) }

  // The product of the distance and a second wraps around to a positive number above
  // the allowed skew.
  predicate WrapsBack(d: int) { MAX_CLOCK_SKEW < d * SECOND % 0x1_0000_0000_0000_0000 < 0x8000_0000_0000_0000 }

  lemma WrapModulo(x: int)
    requires x >= 0
    ensures var m := x % 0x1_0000_0000_0000_0000;
            Wrap(x) == if m < 0x8000_0000_0000_0000 then m else m - 0x1_0000_0000_0000_0000
  {
  }

  // Beyond half the range the absolute difference comes back down.
  function Folded(d: int): int { if d <= 0x8000_0000_0000_0000 then d else 0x1_0000_0000_0000_0000 - d }

  lemma SkewIsFolded(now: int, timestamp: int)
    requires Int64(now) && Int64(timestamp)
    ensures var f := Folded(Distance(now, timestamp));
            Skew(now, timestamp) == if f == 0x8000_0000_0000_0000 then -f else f
  {
  }

  lemma SmallSkewIff(skew: int)
    requires skew >= 0
    ensures SmallSkew(skew) <==> !WrapsBack(skew)
  {
    WrapModulo(skew * SECOND);
  }

  // The one difference that has no absolute value wraps to nothing.
  lemma LeastSkewIsSmall()
    ensures SmallSkew(-0x8000_0000_0000_0000) && !WrapsBack(0x8000_0000_0000_0000)
  {
    assert 0x8000_0000_0000_0000 * SECOND == 500_000_000 * 0x1_0000_0000_0000_0000;
  }

  // What the comparison computes, for all clocks.
  lemma InWindowIff(now: int, timestamp: int)
    requires Int64(now) && Int64(timestamp)
    ensures InWindow(now, timestamp) <==> !WrapsBack(Folded(Distance(now, timestamp)))
  {
    var f := Folded(Distance(now, timestamp));
    SkewIsFolded(now, timestamp);
    if f == 0x8000_0000_0000_0000 { LeastSkewIsSmall(); } else { SmallSkewIff(f); }
  }

  lemma NoWrapNearby(d: int)
    requires 0 <= d <= 9223372036
    ensures WrapsBack(d) <==> d > 30
  {
    assert d * SECOND % 0x1_0000_0000_0000_0000 == d * SECOND;
  }

  // For all clocks: the comparison answers "at most 30 s apart" correctly exactly when
  // the distance is at most 9223372036 s, or the wrapped product is too large again.
  lemma WindowExactIff(now: int, timestamp: int)
    requires Int64(now) && Int64(timestamp)
    ensures var d := Distance(now, timestamp);
            (InWindow(now, timestamp) <==> d <= 30) <==> d <= 9223372036 || WrapsBack(Folded(d))
  {
    InWindowIff(now, timestamp);
    if Distance(now, timestamp) <= 9223372036 { NoWrapNearby(Distance(now, timestamp)); }
  }

  // From the next second on, and for as long again, it fails: the product is negative.
  lemma WindowFailsBeyond(d: int)
    requires 9223372036 < d <= 18446744073
    ensures !WrapsBack(d)
  {
    assert d * SECOND % 0x1_0000_0000_0000_0000 == d * SECOND;
  }

  // ---------------------------------------------------------- signing and validating

  type Headers = map<string, string>

  function HeaderOf(h: Headers, name: string): string { if name in h then h[name] else "" }

  function Signed(secret: string, mac: Mac, verb: string, path: string, h: Headers, now: int): Headers
  {
    if secret == "" then h
    else h[HEADER_TIMESTAMP := Decimal.Format(now)][HEADER_SIGNATURE := mac(secret, Message(verb, path, now))]
  }

  // When a request is let through.
  predicate Valid(secret: string, mac: Mac, verb: string, path: string, h: Headers, now: int)
  {
    || secret == ""
    || var ts := Decimal.Parse(HeaderOf(h, HEADER_TIMESTAMP));
       && ts.Some? && InWindow(now, ts.value)
       && HeaderOf(h, HEADER_SIGNATURE) == mac(secret, Message(verb, path, ts.value))
  }

  class Request {
    const verb: string
    const path: string
    var headers: Headers

    constructor (verb: string, path: string)
      ensures this.verb == verb && this.path == path && headers == map[]
    {
      this.verb, this.path := verb, path;
      headers := map[];
    }
  }

  class Authenticator {
    const secret: string
    const mac: Mac

    constructor (secret: string, mac: Mac)
      ensures this.secret == secret && this.mac == mac
    {
      this.secret, this.mac := secret, mac;
    }

    method SignRequest(req: Request, now: int)
      modifies req
      ensures req.headers == Signed(secret, mac, req.verb, req.path, old(req.headers), now)
      ensures secret == "" ==> req.headers == old(req.headers)
      ensures secret != "" ==>
                req.headers == old(req.headers)["X-Orchestrator-Timestamp" := Decimal.Format(now)]
                  ["X-Orchestrator-Signature" := mac(secret, req.verb + ":" + req.path + ":" + Decimal.Format(now))]
    {
      if secret == "" {
        return;
      }
      req.headers := req.headers[HEADER_TIMESTAMP := Decimal.Format(now)];
      var signature := mac(secret, Message(req.verb, req.path, now));
      req.headers := req.headers[HEADER_SIGNATURE := signature];
    }

    method ValidateRequest(req: Request, now: int) returns (r: Result<()>)
      ensures r.Ok? <==> Valid(secret, mac, req.verb, req.path, req.headers, now)
      ensures secret == "" ==> r.Ok?
      ensures secret != "" ==>
                var t := Decimal.Parse(HeaderOf(req.headers, "X-Orchestrator-Timestamp"));
                && (r == Err("missing timestamp header") <==>
                      HeaderOf(req.headers, "X-Orchestrator-Timestamp") == "")
                && (t.Some? && !InWindow(now, t.value) ==> r == Err("timestamp outside allowed window"))
      ensures secret != "" ==>
                var t := Decimal.Parse(HeaderOf(req.headers, "X-Orchestrator-Timestamp"));
                r.Ok? <==>
                && t.Some? && InWindow(now, t.value)
                && HeaderOf(req.headers, "X-Orchestrator-Signature") ==
                   mac(secret, req.verb + ":" + req.path + ":" + Decimal.Format(t.value))
    {
      if secret == "" {
        return Ok(());
      }
      var timestampStr := HeaderOf(req.headers, HEADER_TIMESTAMP);
      if timestampStr == "" {
        return Err("missing timestamp header");
      }
      var timestamp := Decimal.Parse(timestampStr);
      if timestamp.None? {
        return Err("invalid timestamp");
      }
      var diff := Wrap(now - timestamp.value);
      if diff < 0 {
        diff := Wrap(-diff);
      }
      if Wrap(diff * SECOND) > MAX_CLOCK_SKEW {
        return Err("timestamp outside allowed window");
      }
      var expected := mac(secret, Message(req.verb, req.path, timestamp.value));
      if HeaderOf(req.headers, HEADER_SIGNATURE) != expected {
        return Err("invalid signature");
      }
      return Ok(());
    }
  }

  // A request that nobody signed, or whose timestamp is missing, is turned away.
  lemma UnsignedIsRejected(secret: string, mac: Mac, verb: string, path: string, h: Headers, now: int)
    requires secret != "" && forall x :: mac(secret, x) != ""
    requires "X-Orchestrator-Signature" !in h || "X-Orchestrator-Timestamp" !in h
    ensures !Valid(secret, mac, verb, path, h, now)
  {
    assert Decimal.Parse("") == None;
  }

  // So a request is let through only if its signature is the keyed hash of this very
  // method, path and timestamp, and the timestamp is in the window.
  lemma OnlySignedPass(secret: string, mac: Mac, verb: string, path: string, h: Headers, now: int) returns (t: int)
    requires secret != "" && Int64(now) && Valid(secret, mac, verb, path, h, now)
    ensures Decimal.Parse(HeaderOf(h, "X-Orchestrator-Timestamp")) == Some(t)
    ensures HeaderOf(h, "X-Orchestrator-Signature") == mac(secret, verb + ":" + path + ":" + Decimal.Format(t))
    ensures Distance(now, t) <= 9223372036 ==> Distance(now, t) <= 30
  {
    t := Decimal.Parse(HeaderOf(h, "X-Orchestrator-Timestamp")).value;
    InWindowIff(now, t);
    if Distance(now, t) <= 9223372036 { NoWrapNearby(Distance(now, t)); }
  }

  // A signed request validates under the same secret exactly when the clocks differ
  // by at most 30 s (always, when no secret is set), for clocks up to 9223372036 s
  // apart; beyond that, exactly when the wrapped difference passes.
  lemma SigningAgrees(secret: string, mac: Mac, verb: string, path: string, h: Headers, signedAt: int, now: int)
    requires Int64(signedAt) && Int64(now)
    ensures Distance(now, signedAt) <= 9223372036 ==>
              (Valid(secret, mac, verb, path, Signed(secret, mac, verb, path, h, signedAt), now) <==>
               secret == "" || Distance(now, signedAt) <= 30)
    ensures Valid(secret, mac, verb, path, Signed(secret, mac, verb, path, h, signedAt), now)
       <==> secret == "" || !WrapsBack(Folded(Distance(now, signedAt)))
  {
    Decimal.ParseFormat(signedAt);
    InWindowIff(now, signedAt);
    if Distance(now, signedAt) <= 9223372036 { NoWrapNearby(Distance(now, signedAt)); }
    assert HEADER_TIMESTAMP != HEADER_SIGNATURE by { assert HEADER_TIMESTAMP[15] != HEADER_SIGNATURE[15]; }
  }

  // If the keyed hash separates messages, a signature made for one request lets no
  // request with another method or path through, at any time.
  lemma SignatureBindsRequest(secret: string, mac: Mac, v: string, p: string, h: Headers, signedAt: int,
                              v': string, p': string, now: int)
    requires secret != "" && Int64(signedAt) && ColonFree(v) && ColonFree(v')
    requires forall x, y :: mac(secret, x) == mac(secret, y) ==> x == y
    requires Valid(secret, mac, v', p', Signed(secret, mac, v, p, h, signedAt), now)
    ensures v == v' && p == p'
  {
    Decimal.ParseFormat(signedAt);
    assert HEADER_TIMESTAMP != HEADER_SIGNATURE by { assert HEADER_TIMESTAMP[15] != HEADER_SIGNATURE[15]; }
    MessageInjective(v, p, signedAt, v', p', signedAt);
  }
}
