/** Session upkeep of src/lib/sessionManager.ts: reading the session's
    expiry, the refresh decision taken on every tick of the five-minute
    interval, the debug summary (minutes left and a masked token) and the
    cleanup of stored keys. Whether the backend client is configured, its
    replies, the clock and the browser's storage are parameters. */
module Session {
  import opened Common

  /** The fields of a backend session the manager reads; `expiresAt` is in
      seconds and `None` when absent. */
  datatype SessionData = SessionData(
    email: string,
    userId: string,
    expiresAt: Option<int>,
    tokenType: string,
    accessToken: Option<string>)

  /** What a `getSession`/`refreshSession` call gives back: an exception, or
      a reply carrying an error flag and possibly a session. */
  datatype SessionReply = Threw | Reply(error: bool, session: Option<SessionData>)

  // ---------------------------------------------------------------------------
  // Result mapping

  /** `hasValidSession()`. */
  function HasValidSession(configured: bool, reply: SessionReply): (valid: bool)
    ensures valid <==> configured && reply.Reply? && !reply.error && reply.session.Some?
  {
    if !configured then false
    else match reply
      case Threw => false
      case Reply(error, session) => if error then false else session.Some?
  }

  /** `refreshSession()`, which maps its reply the same way. */
  function RefreshSession(configured: bool, reply: SessionReply): (refreshed: bool)
    ensures refreshed == HasValidSession(configured, reply)
  {
    if !configured then false
    else match reply
      case Threw => false
      case Reply(error, session) => if error then false else session.Some?
  }

  /** `getSessionExpiry()`, in milliseconds; an `expires_at` of 0 is falsy. */
  function SessionExpiry(configured: bool, reply: SessionReply): (expiry: Option<int>)
    ensures expiry.Some? <==>
              configured && reply.Reply? && reply.session.Some?
              && reply.session.value.expiresAt.Some? && reply.session.value.expiresAt.value != 0
    ensures expiry.Some? ==> expiry.value == reply.session.value.expiresAt.value * 1000
  {
    if !configured then None
    else match reply
      case Threw => None
      case Reply(_, session) =>
        if session.None? then None
        else if session.value.expiresAt.Some? && session.value.expiresAt.value != 0 then
          Some(session.value.expiresAt.value * 1000)
        else None
  }

  // ---------------------------------------------------------------------------
  // Automatic refresh

  const TickPeriodMs := 5 * 60 * 1000
  const RefreshThresholdMs := 10 * 60 * 1000

  /** The decision of one tick: refresh when there is a session whose expiry
      is known and less than ten minutes away. */
  predicate ShouldRefresh(hasSession: bool, expiry: Option<int>, now: int) {
    hasSession && expiry.Some? && expiry.value - now < RefreshThresholdMs
  }

  lemma ShouldRefreshThreshold(expiry: int, now: int)
    ensures ShouldRefresh(true, Some(expiry), now) <==> expiry - now <= 599999
    ensures !ShouldRefresh(true, Some(expiry), expiry - 600000)
    ensures ShouldRefresh(true, Some(expiry), expiry - 599999)
    ensures !ShouldRefresh(false, Some(expiry), now) && !ShouldRefresh(true, None, now)
  {
  }

  /** Ticks five minutes apart cannot skip the ten-minute window: a tick
      that does not refresh leaves the next tick at least five minutes
      before expiry, and a session first sighted outside the window is
      refreshed by a later tick strictly before it expires. */
  lemma TickCatchesWindow(expiry: int, now: int)
    ensures !ShouldRefresh(true, Some(expiry), now) ==>
              expiry - (now + TickPeriodMs) >= RefreshThresholdMs - TickPeriodMs > 0
    ensures expiry - now >= RefreshThresholdMs ==>
              var k := (expiry - now - RefreshThresholdMs) / TickPeriodMs + 1;
              ShouldRefresh(true, Some(expiry), now + k * TickPeriodMs)
              && now + k * TickPeriodMs < expiry
  {
    if expiry - now >= RefreshThresholdMs {
      var d := expiry - now - RefreshThresholdMs;
      var k := d / TickPeriodMs + 1;
      assert d == (d / TickPeriodMs) * TickPeriodMs + d % TickPeriodMs;
      assert k * TickPeriodMs == (d / TickPeriodMs) * TickPeriodMs + TickPeriodMs;
    }
  }

  /** What one tick observes: the two session reads and the clock. */
  datatype TickInput = TickInput(validReply: SessionReply, expiryReply: SessionReply, now: int)

  /** The decision of a tick from the replies it receives. */
  predicate TickRefreshes(configured: bool, t: TickInput) {
    var hasSession := HasValidSession(configured, t.validReply);
    ShouldRefresh(hasSession, if hasSession then SessionExpiry(configured, t.expiryReply) else None, t.now)
  }

  function TickRefreshesFn(configured: bool): TickInput -> bool {
    t => TickRefreshes(configured, t)
  }

  /** The interval `setupAutoRefresh` installs, and its cleanup. */
  class AutoRefresh {
    /** Whether an interval is scheduled. */
    var scheduled: bool
    /** How many ticks have called `refreshSession`. */
    var refreshCalls: nat
    const configured: bool

    /** `setupAutoRefresh()`: an unconfigured client schedules nothing. */
    constructor (configured: bool)
      ensures this.configured == configured && scheduled == configured && refreshCalls == 0
    {
      this.configured := configured;
      scheduled := configured;
      refreshCalls := 0;
    }

    /** One firing of the interval; nothing happens once it is cancelled. */
    method Tick(t: TickInput) returns (refreshed: bool)
      modifies this
      ensures refreshed <==> old(scheduled) && TickRefreshes(configured, t)
      ensures scheduled == old(scheduled)
      ensures refreshCalls == old(refreshCalls) + (if refreshed then 1 else 0)
    {
      refreshed := false;
      if !scheduled {
        return;
      }
      var hasSession := HasValidSession(configured, t.validReply);
      if hasSession {
        var expiry := SessionExpiry(configured, t.expiryReply);
        if expiry.Some? {
          var timeUntilExpiry := expiry.value - t.now;
          if timeUntilExpiry < RefreshThresholdMs {
            refreshCalls := refreshCalls + 1;
            refreshed := true;
          }
        }
      }
    }

    /** The ticks that fire over a stretch of time, one per period; the
        number of refresh calls is the number of ticks whose decision is to
        refresh. */
    method RunTicks(ticks: seq<TickInput>) returns (refreshes: nat)
      modifies this
      ensures scheduled == old(scheduled)
      ensures refreshes == (if scheduled then Count(ticks, TickRefreshesFn(configured)) else 0)
      ensures refreshCalls == old(refreshCalls) + refreshes
    {
      refreshes := 0;
      var i := 0;
      while i < |ticks|
        invariant 0 <= i <= |ticks|
        invariant scheduled == old(scheduled)
        invariant refreshes == (if scheduled then Count(ticks[..i], TickRefreshesFn(configured)) else 0)
        invariant refreshCalls == old(refreshCalls) + refreshes
      {
        var r := Tick(ticks[i]);
        CountSnoc(ticks[..i], ticks[i], TickRefreshesFn(configured));
        assert ticks[..i + 1] == ticks[..i] + [ticks[i]];
        if r {
          refreshes := refreshes + 1;
        }
        i := i + 1;
      }
      assert ticks[..i] == ticks;
    }

    /** The cleanup function returned by `setupAutoRefresh`. */
    method Cleanup()
      modifies this
      ensures !scheduled && refreshCalls == old(refreshCalls)
    {
      scheduled := false;
    }
  }

  // ---------------------------------------------------------------------------
  // Debug summary

  /** `String(n)` for a whole number that may be negative. */
  function IntText(n: int): string {
    if n < 0 then "-" + Decimal(-n) else Decimal(n)
  }

  /** `Math.floor(ms / 1000 / 60)`: Dafny's division by a positive number
      already rounds down. */
  function WholeMinutes(ms: int): (m: int)
    ensures m * 60000 <= ms < (m + 1) * 60000
  {
    ms / 60000
  }

  /** The `timeUntilExpiry` text: minutes for a truthy difference, otherwise
      'unknown' (a difference of exactly 0 is falsy). */
  function MinutesText(timeUntilExpiry: Option<int>): (r: string)
    ensures timeUntilExpiry.None? || timeUntilExpiry.value == 0 ==> r == "unknown"
    ensures timeUntilExpiry.Some? && timeUntilExpiry.value != 0 ==>
              r == IntText(WholeMinutes(timeUntilExpiry.value)) + " minutes"
  {
    if timeUntilExpiry.Some? && timeUntilExpiry.value != 0 then
      IntText(timeUntilExpiry.value / 60000) + " minutes"
    else "unknown"
  }

  /** Under a minute is reported as 0 minutes; a zero difference is
      unknown. */
  lemma MinutesExamples()
    ensures MinutesText(Some(59999)) == "0 minutes"
    ensures MinutesText(Some(0)) == "unknown"
  {
    assert WholeMinutes(59999) == 0;
    assert IntText(0) == "0";
  }

  /** Ten minutes are reported as such, and a difference just below zero
      rounds down to minus one minute. */
  lemma MinutesExamplesSigned()
    ensures MinutesText(Some(600000)) == "10 minutes"
    ensures MinutesText(Some(-1)) == "-1 minutes"
  {
    assert WholeMinutes(600000) == 10;
    assert WholeMinutes(-1) == -1;
    assert IntText(10) == "10" by {
      assert Decimal(10) == Decimal(1) + [DigitChar(0)];
    }
    assert IntText(-1) == "-1";
  }

  /** `s.slice(-8)`. */
  function LastEight(s: string): (r: string)
    ensures |r| == if |s| < 8 then |s| else 8
    ensures r == s[|s| - |r|..]
  {
    if |s| < 8 then s else s[|s| - 8..]
  }

  /** The `accessToken` field: three stars and the token's last eight
      characters, or nothing for a missing or empty token. */
  function MaskToken(token: Option<string>): (r: Option<string>)
    ensures r.Some? <==> Truthy(token)
    ensures r.Some? ==> |r.value| == 3 + (if |token.value| < 8 then |token.value| else 8)
                        && r.value[..3] == "***"
                        && r.value[3..] == token.value[|token.value| - |r.value[3..]|..]
  {
    if Truthy(token) then Some("***" + LastEight(token.value)) else None
  }

  /** Tokens of at most eight characters are shown whole after the stars;
      longer ones hide everything but the last eight. */
  lemma MaskTokenExamples()
    ensures MaskToken(Some("abc")) == Some("***abc")
    ensures MaskToken(Some("0123456789")) == Some("***23456789")
    ensures MaskToken(Some("")) == None
  {
    assert LastEight("abc") == "abc";
    assert "***" + "abc" == "***abc";
    assert "0123456789"[2..] == "23456789";
    assert LastEight("0123456789") == "23456789";
    assert "***" + "23456789" == "***23456789";
  }

  datatype SessionInfo =
    | Unconfigured
    | NoSession
    | Failed
    | Active(email: string, userId: string, timeUntilExpiry: string, tokenType: string, accessToken: Option<string>)

  /** `getSessionInfo()` at clock reading `now`. */
  function GetSessionInfo(configured: bool, reply: SessionReply, now: int): (info: SessionInfo)
    ensures info.Active? <==> configured && reply.Reply? && reply.session.Some?
    ensures info.Active? ==>
              var s := reply.session.value;
              info.accessToken == MaskToken(s.accessToken)
              && info.timeUntilExpiry ==
                   (if s.expiresAt.Some? && s.expiresAt.value != 0
                    then MinutesText(Some(s.expiresAt.value * 1000 - now)) else "unknown")
  {
    if !configured then Unconfigured
    else match reply
      case Threw => Failed
      case Reply(_, None) => NoSession
      case Reply(_, Some(s)) =>
        var expiry := if s.expiresAt.Some? && s.expiresAt.value != 0 then Some(s.expiresAt.value * 1000) else None;
        var timeUntilExpiry := if expiry.Some? then Some(expiry.value - now) else None;
        Active(s.email, s.userId, MinutesText(timeUntilExpiry), s.tokenType, MaskToken(s.accessToken))
  }

  // ---------------------------------------------------------------------------
  // Clearing the session

  const AuthTokenKey := "supabase.auth.token"
  const CartKey := "cart"

  /** The storage `clearSession()` leaves: the two keys are removed only
      after the backend sign-out returned; an unconfigured client or a
      sign-out that throws leaves the storage as it was. */
  function ClearSession(configured: bool, signOutThrows: bool, storage: map<string, string>): (r: map<string, string>)
    ensures configured && !signOutThrows ==>
              AuthTokenKey !in r && CartKey !in r
              && forall k :: k != AuthTokenKey && k != CartKey ==>
                   (k in r <==> k in storage) && (k in r ==> r[k] == storage[k])
    ensures !configured || signOutThrows ==> r == storage
  {
    if !configured || signOutThrows then storage else storage - {AuthTokenKey} - {CartKey}
  }
}
