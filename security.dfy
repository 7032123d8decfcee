/** The client-side security helpers of src/lib/security.tsx: the fixed-window
    rate limiter keyed by identifier, the CSRF token check, and the hex
    encoding of the random token bytes. The clock reading is a parameter. */
module Security {
  import opened Common

  // ---------------------------------------------------------------------------
  // Rate limiter

  /** The entry kept per identifier: attempts so far and the start of the window. */
  datatype Attempt = Attempt(count: int, timestamp: int)

  /** The answer of one `isAllowed` call and the map it leaves. */
  datatype Decision = Decision(allowed: bool, attempts: map<string, Attempt>)

  const DefaultMaxAttempts := 5
  const DefaultWindowMs := 15 * 60 * 1000

  /** One `isAllowed(id)` call at time `now`. */
  function Check(attempts: map<string, Attempt>, maxAttempts: int, windowMs: int, id: string, now: int): Decision {
    if id !in attempts then Decision(true, attempts[id := Attempt(1, now)])
    else if now - attempts[id].timestamp > windowMs then Decision(true, attempts[id := Attempt(1, now)])
    else if attempts[id].count >= maxAttempts then Decision(false, attempts)
    else Decision(true, attempts[id := attempts[id].(count := attempts[id].count + 1)])
  }

  /** No stored count exceeds the limit. */
  predicate CountsWithin(attempts: map<string, Attempt>, maxAttempts: int) {
    forall id :: id in attempts ==> attempts[id].count <= maxAttempts
  }

  /** The first call for an unseen identifier is allowed and opens a window at `now`. */
  lemma FirstCallAllowed(attempts: map<string, Attempt>, maxAttempts: int, windowMs: int, id: string, now: int)
    requires id !in attempts
    ensures Check(attempts, maxAttempts, windowMs, id, now) == Decision(true, attempts[id := Attempt(1, now)])
  {
  }

  /** A call strictly more than `windowMs` after the window opened is allowed
      and opens a new window; a call exactly `windowMs` after it does not. */
  lemma WindowExpiry(attempts: map<string, Attempt>, maxAttempts: int, windowMs: int, id: string, now: int)
    requires id in attempts
    ensures now - attempts[id].timestamp > windowMs ==>
              Check(attempts, maxAttempts, windowMs, id, now) == Decision(true, attempts[id := Attempt(1, now)])
    ensures now - attempts[id].timestamp == windowMs && attempts[id].count >= maxAttempts ==>
              !Check(attempts, maxAttempts, windowMs, id, now).allowed
  {
  }

  /** A refused call changes nothing; an allowed call inside the window adds
      one to the count and keeps the window's start; other identifiers are
      never touched; and the counts stay within the limit. */
  lemma CheckSpec(attempts: map<string, Attempt>, maxAttempts: int, windowMs: int, id: string, now: int)
    ensures var d := Check(attempts, maxAttempts, windowMs, id, now);
            (!d.allowed ==> d.attempts == attempts)
            && (id in d.attempts)
            && (forall other :: other != id ==>
                  (other in d.attempts <==> other in attempts)
                  && (other in attempts ==> d.attempts[other] == attempts[other]))
    ensures id in attempts && now - attempts[id].timestamp <= windowMs ==>
              var d := Check(attempts, maxAttempts, windowMs, id, now);
              (d.allowed <==> attempts[id].count < maxAttempts)
              && (d.allowed ==> d.attempts[id] == Attempt(attempts[id].count + 1, attempts[id].timestamp))
    ensures maxAttempts >= 1 && CountsWithin(attempts, maxAttempts) ==>
              CountsWithin(Check(attempts, maxAttempts, windowMs, id, now).attempts, maxAttempts)
  {
  }

  /** The answers to a series of calls for one identifier at the given times. */
  function Run(attempts: map<string, Attempt>, maxAttempts: int, windowMs: int, id: string, nows: seq<int>): (r: seq<bool>)
    ensures |r| == |nows|
    decreases |nows|
  {
    if nows == [] then []
    else
      var d := Check(attempts, maxAttempts, windowMs, id, nows[0]);
      [d.allowed] + Run(d.attempts, maxAttempts, windowMs, id, nows[1..])
  }

  /** Inside a window opened at `t0` with `c` attempts used, a call is allowed
      exactly while the count has not reached the limit. */
  lemma {:induction false} RunInsideWindow(attempts: map<string, Attempt>, maxAttempts: int, windowMs: int,
                                           id: string, c: int, t0: int, nows: seq<int>)
    requires id in attempts && attempts[id] == Attempt(c, t0)
    requires forall k :: 0 <= k < |nows| ==> nows[k] - t0 <= windowMs
    ensures forall k :: 0 <= k < |nows| ==> (Run(attempts, maxAttempts, windowMs, id, nows)[k] <==> c + k < maxAttempts)
    decreases |nows|
  {
    if nows != [] {
      var d := Check(attempts, maxAttempts, windowMs, id, nows[0]);
      var r := Run(attempts, maxAttempts, windowMs, id, nows);
      var tail := Run(d.attempts, maxAttempts, windowMs, id, nows[1..]);
      assert r == [d.allowed] + tail;
      if c < maxAttempts {
        RunInsideWindow(d.attempts, maxAttempts, windowMs, id, c + 1, t0, nows[1..]);
        forall k | 0 <= k < |nows|
          ensures r[k] <==> c + k < maxAttempts
        {
          if k > 0 {
            assert r[k] == tail[k - 1];
          }
        }
      } else {
        assert d.attempts == attempts;
        RunInsideWindow(d.attempts, maxAttempts, windowMs, id, c, t0, nows[1..]);
        forall k | 0 <= k < |nows|
          ensures r[k] <==> c + k < maxAttempts
        {
          if k > 0 {
            assert r[k] == tail[k - 1];
          }
        }
      }
    }
  }

  /** Starting with no entry for the identifier, of the calls made within
      `windowMs` of the first one exactly the first `maxAttempts` are allowed
      (and the first always is). */
  lemma ExactlyMaxAllowedPerWindow(attempts: map<string, Attempt>, maxAttempts: int, windowMs: int, id: string, nows: seq<int>)
    requires id !in attempts && nows != []
    requires forall k :: 0 <= k < |nows| ==> nows[k] - nows[0] <= windowMs
    ensures Run(attempts, maxAttempts, windowMs, id, nows)[0]
    ensures forall k :: 1 <= k < |nows| ==> (Run(attempts, maxAttempts, windowMs, id, nows)[k] <==> k < maxAttempts)
  {
    var d := Check(attempts, maxAttempts, windowMs, id, nows[0]);
    var r := Run(attempts, maxAttempts, windowMs, id, nows);
    var tail := Run(d.attempts, maxAttempts, windowMs, id, nows[1..]);
    assert r == [true] + tail;
    RunInsideWindow(d.attempts, maxAttempts, windowMs, id, 1, nows[0], nows[1..]);
    forall k | 1 <= k < |nows|
      ensures r[k] <==> k < maxAttempts
    {
      assert r[k] == tail[k - 1];
    }
  }

  /** After `reset(id)` the identifier is unseen, so its next call is allowed,
      and every other identifier keeps its entry. */
  lemma ResetSpec(attempts: map<string, Attempt>, maxAttempts: int, windowMs: int, id: string, now: int)
    ensures id !in attempts - {id}
    ensures forall other :: other != id ==>
              (other in attempts - {id} <==> other in attempts)
              && (other in attempts ==> (attempts - {id})[other] == attempts[other])
    ensures Check(attempts - {id}, maxAttempts, windowMs, id, now).allowed
  {
  }

  class RateLimiter {
    var attempts: map<string, Attempt>
    const maxAttempts: int
    const windowMs: int

    constructor (maxAttempts: int, windowMs: int)
      ensures this.maxAttempts == maxAttempts && this.windowMs == windowMs && attempts == map[]
    {
      this.maxAttempts := maxAttempts;
      this.windowMs := windowMs;
      attempts := map[];
    }

    /** `isAllowed(identifier)` at clock reading `now`. */
    method IsAllowed(id: string, now: int) returns (allowed: bool)
      modifies this
      ensures Decision(allowed, attempts) == Check(old(attempts), maxAttempts, windowMs, id, now)
    {
      if id !in attempts {
        attempts := attempts[id := Attempt(1, now)];
        return true;
      }
      var attempt := attempts[id];
      if now - attempt.timestamp > windowMs {
        attempts := attempts[id := Attempt(1, now)];
        return true;
      }
      if attempt.count >= maxAttempts {
        return false;
      }
      attempts := attempts[id := attempt.(count := attempt.count + 1)];
      return true;
    }

    /** `reset(identifier)`. */
    method Reset(id: string)
      modifies this
      ensures attempts == old(attempts) - {id}
    {
      attempts := attempts - {id};
    }
  }

  /** The login limiter: 5 attempts per 15 minutes. */
  method NewLoginRateLimiter() returns (r: RateLimiter)
    ensures fresh(r) && r.maxAttempts == 5 && r.windowMs == 900000 && r.attempts == map[]
  {
    r := new RateLimiter(DefaultMaxAttempts, DefaultWindowMs);
  }

  /** The sign-up limiter: 3 attempts per hour. */
  method NewSignupRateLimiter() returns (r: RateLimiter)
    ensures fresh(r) && r.maxAttempts == 3 && r.windowMs == 3600000 && r.attempts == map[]
  {
    r := new RateLimiter(3, 60 * 60 * 1000);
  }

  // ---------------------------------------------------------------------------
  // CSRF token

  /** `/^[a-zA-Z0-9]+$/.test(s)`. */
  predicate AlphanumericOnly(s: string) {
    |s| >= 1 && forall i :: 0 <= i < |s| ==> IsAlphanumeric(s[i])
  }

  /** `validateCSRFToken(token)`: a truthy token of at least 32 characters
      that passes the alphanumeric pattern. */
  predicate ValidCsrfToken(token: string) {
    token != "" && |token| >= 32 && AlphanumericOnly(token)
  }

  lemma CsrfTokenCharacterization(token: string)
    ensures ValidCsrfToken(token) <==> |token| >= 32 && forall i :: 0 <= i < |token| ==> IsAlphanumeric(token[i])
  {
  }

  newtype byte = x: int | 0 <= x < 256

  predicate IsHexDigit(c: char) {
    IsDigit(c) || 'a' <= c <= 'f'
  }

  function HexDigit(d: int): (c: char)
    requires 0 <= d < 16
    ensures IsHexDigit(c)
  {
    if d < 10 then ('0' as int + d) as char else ('a' as int + d - 10) as char
  }

  function HexValue(c: char): (d: int)
    requires IsHexDigit(c)
    ensures 0 <= d < 16
  {
    if IsDigit(c) then c as int - '0' as int else c as int - 'a' as int + 10
  }

  /** `b.toString(16)`: lower-case hexadecimal without leading zeros. */
  function ToHexString(b: byte): string {
    if b < 16 then [HexDigit(b as int)] else [HexDigit(b as int / 16), HexDigit(b as int % 16)]
  }

  /** `s.padStart(2, '0')`. */
  function PadStart2(s: string): string {
    if |s| == 0 then "00" else if |s| == 1 then "0" + s else s
  }

  /** The text `generateCSRFToken` builds from its random bytes. */
  function HexEncode(bytes: seq<byte>): string {
    if bytes == [] then "" else PadStart2(ToHexString(bytes[0])) + HexEncode(bytes[1..])
  }

  /** Reads two hex digits per byte; the partner of `HexEncode`. */
  function HexDecode(s: string): seq<byte>
    requires |s| % 2 == 0 && forall i :: 0 <= i < |s| ==> IsHexDigit(s[i])
  {
    if s == [] then [] else [(HexValue(s[0]) * 16 + HexValue(s[1])) as byte] + HexDecode(s[2..])
  }

  /** Each byte becomes exactly two characters, its high and low nibble. */
  lemma HexByteSpec(b: byte)
    ensures PadStart2(ToHexString(b)) == [HexDigit(b as int / 16), HexDigit(b as int % 16)]
  {
  }

  /** The encoding has two characters per byte, all from [0-9a-f], and
      decodes back to the bytes. */
  lemma {:induction false} HexEncodeSpec(bytes: seq<byte>)
    ensures |HexEncode(bytes)| == 2 * |bytes|
    ensures forall i :: 0 <= i < |HexEncode(bytes)| ==> IsHexDigit(HexEncode(bytes)[i])
    ensures HexDecode(HexEncode(bytes)) == bytes
  {
    if bytes != [] {
      HexByteSpec(bytes[0]);
      HexEncodeSpec(bytes[1..]);
      var s := HexEncode(bytes);
      var b := bytes[0] as int;
      assert s[2..] == HexEncode(bytes[1..]);
      assert HexValue(s[0]) == b / 16 && HexValue(s[1]) == b % 16;
    }
  }

  /** A token generated from 32 bytes is 64 characters long and valid. */
  lemma GeneratedTokenValid(bytes: seq<byte>)
    requires |bytes| == 32
    ensures |HexEncode(bytes)| == 64 && ValidCsrfToken(HexEncode(bytes))
  {
    HexEncodeSpec(bytes);
  }
}
