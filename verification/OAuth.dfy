/**
 One account's token request: the retry loop over posts to the token endpoint, the optional mailbox check, and
 the result handed to the worker (section 6 of RFC 6749: a refresh may issue a new refresh token).
 */
module OAuth {
  import opened Prelude
  import opened Accounts

  /** `Retry-After`: not digits, a number of seconds, or digits that no number can be read from. */
  datatype RetryAfter = NotDigits | Seconds(n: nat) | Unreadable

  /**
   What one post comes to. An absent or falsy JSON field is the empty string; `description` is the error
   description after redaction. `NotAnObject` stands for every other exception.
   */
  datatype Post =
    | Reply(
        status: nat, accessToken: string, refreshToken: string, error: string, description: string,
        retryAfter: RetryAfter)
    | NotAnObject
    | NetworkFailure

  datatype TokenResult = TokenResult(
    ok: bool, accessToken: string, refreshToken: string, errorCode: string, permanent: bool)

  const PERMANENT_ERRORS: seq<string> :=
    ["invalid_grant", "expired_token", "invalid_client", "unauthorized_client", "interaction_required",
     "consent_required"]

  predicate StandsAt(s: string, part: string, i: nat) {
    i + |part| <= |s| && s[i..i + |part|] == part
  }

  predicate Contains(s: string, part: string) {
    exists i :: 0 <= i <= |s| - |part| && StandsAt(s, part, i)
  }

  function Digits(n: nat): string {
    (if n < 10 then "" else Digits(n / 10)) + ["0123456789"[n % 10]]
  }

  predicate Granted(p: Post) {
    p.Reply? && p.status == 200 && p.accessToken != ""
  }

  function Code(p: Post): string
    requires p.Reply?
  {
    if p.error != "" then p.error else "http_" + Digits(p.status)
  }

  predicate Permanent(p: Post) {
    p.Reply? && !Granted(p)
    && (|| Code(p) in PERMANENT_ERRORS
        || exists k :: 0 <= k < |PERMANENT_ERRORS| && Contains(p.description, PERMANENT_ERRORS[k]))
  }

  // ----- Permanent refusals, spelled out

  /** The text has the word in it somewhere. */
  ghost predicate Mentions(text: string, word: string) {
    exists before, after :: text == before + word + after
  }

  lemma ContainsIsMentions(text: string, word: string)
    ensures Contains(text, word) <==> Mentions(text, word)
  {
    if Contains(text, word) {
      var i :| 0 <= i <= |text| - |word| && StandsAt(text, word, i);
      assert text == text[..i] + word + text[i + |word|..];
    }
    if Mentions(text, word) {
      var before, after :| text == before + word + after;
      assert text[|before|..|before| + |word|] == word;
      assert StandsAt(text, word, |before|);
    }
  }

  predicate FatalCode(code: string) {
    || code == "invalid_grant" || code == "expired_token" || code == "invalid_client"
    || code == "unauthorized_client" || code == "interaction_required" || code == "consent_required"
  }

  ghost predicate FatalText(text: string) {
    || Mentions(text, "invalid_grant") || Mentions(text, "expired_token") || Mentions(text, "invalid_client")
    || Mentions(text, "unauthorized_client") || Mentions(text, "interaction_required")
    || Mentions(text, "consent_required")
  }

  /** A refusal that no further attempt can change: no access token, and a fatal code or one in the description. */
  ghost predicate Fatal(p: Post) {
    p.Reply? && (p.status != 200 || p.accessToken == "") && (FatalCode(p.error) || FatalText(p.description))
  }

  /** The endpoint's answer that a request was granted: status 200 and an access token. */
  predicate HasToken(p: Post) {
    p.Reply? && p.status == 200 && p.accessToken != ""
  }

  lemma CodesAre(code: string)
    ensures code in PERMANENT_ERRORS <==> FatalCode(code)
  {
    assert PERMANENT_ERRORS[0] == "invalid_grant" && PERMANENT_ERRORS[1] == "expired_token";
    assert PERMANENT_ERRORS[2] == "invalid_client" && PERMANENT_ERRORS[3] == "unauthorized_client";
    assert PERMANENT_ERRORS[4] == "interaction_required" && PERMANENT_ERRORS[5] == "consent_required";
  }

  lemma TextIs(text: string)
    ensures (exists k :: 0 <= k < |PERMANENT_ERRORS| && Contains(text, PERMANENT_ERRORS[k])) <==> FatalText(text)
  {
    forall k | 0 <= k < |PERMANENT_ERRORS|
      ensures Contains(text, PERMANENT_ERRORS[k]) <==> Mentions(text, PERMANENT_ERRORS[k])
    {
      ContainsIsMentions(text, PERMANENT_ERRORS[k]);
    }
    CodesAre("");
    assert PERMANENT_ERRORS == ["invalid_grant", "expired_token", "invalid_client", "unauthorized_client",
                                "interaction_required", "consent_required"];
    assert Mentions(text, PERMANENT_ERRORS[0]) <==> Mentions(text, "invalid_grant");
    assert Mentions(text, PERMANENT_ERRORS[1]) <==> Mentions(text, "expired_token");
    assert Mentions(text, PERMANENT_ERRORS[2]) <==> Mentions(text, "invalid_client");
    assert Mentions(text, PERMANENT_ERRORS[3]) <==> Mentions(text, "unauthorized_client");
    assert Mentions(text, PERMANENT_ERRORS[4]) <==> Mentions(text, "interaction_required");
    assert Mentions(text, PERMANENT_ERRORS[5]) <==> Mentions(text, "consent_required");
  }

  /** A code made up from the status is none of the fatal ones. */
  lemma StatusCodeIsNotFatal(status: nat)
    ensures !FatalCode("http_" + Digits(status))
  {
    assert ("http_" + Digits(status))[0] == 'h';
    assert "invalid_grant"[0] == 'i' && "expired_token"[0] == 'e' && "invalid_client"[0] == 'i';
    assert "unauthorized_client"[0] == 'u' && "interaction_required"[0] == 'i' && "consent_required"[0] == 'c';
  }

  lemma PermanentIsFatal(p: Post)
    ensures Permanent(p) <==> Fatal(p)
  {
    if p.Reply? {
      CodesAre(Code(p));
      TextIs(p.description);
      if p.error == "" {
        StatusCodeIsNotFatal(p.status);
        assert !FatalCode("");
      }
    }
  }

  /** The post may be followed by another one, if attempts remain. */
  predicate Retryable(p: Post) {
    p == NetworkFailure || (p.Reply? && !Granted(p) && !Permanent(p) && p.retryAfter != Unreadable)
  }

  /** What the loop makes of its last post. */
  function Verdict(p: Post, oldToken: string, exhausted: bool): TokenResult {
    match p
    case NetworkFailure => TokenResult(false, "", "", "network_error", false)
    case NotAnObject => TokenResult(false, "", "", "internal_error", false)
    case Reply(_, access, refresh, _, _, _) =>
      if Granted(p) then TokenResult(true, access, if refresh != "" then refresh else oldToken, "", false)
      else if Permanent(p) || exhausted then TokenResult(false, "", "", Code(p), Permanent(p))
      else TokenResult(false, "", "", "internal_error", false)
  }

  function Min(a: int, b: int): int {
    if a < b then a else b
  }

  function PowerOfTwo(n: nat): nat {
    if n == 0 then 1 else 2 * PowerOfTwo(n - 1)
  }

  const MAX_SLEEP: int := 30

  /** The pause before attempt `attempt + 1`. */
  function Pause(p: Post, attempt: nat): int {
    if p.Reply? && p.retryAfter.Seconds? then Min(p.retryAfter.n, MAX_SLEEP) else Min(PowerOfTwo(attempt), 8)
  }

  function Attempts(maxRetries: int): nat {
    if maxRetries > 1 then maxRetries else 1
  }

  /**
   The retry loop, against an endpoint whose answer to the i-th post is `endpoint(i)`: how many posts are made,
   which pauses lie between them, and what the last post means.
   */
  method RefreshToken(endpoint: nat -> Post, oldToken: string, maxRetries: int)
    returns (r: TokenResult, made: nat, sleeps: seq<int>)
    ensures 1 <= made <= Attempts(maxRetries)
    ensures forall i :: 0 <= i < made - 1 ==> Retryable(endpoint(i))
    ensures made == Attempts(maxRetries) || !Retryable(endpoint(made - 1))
    ensures r == Verdict(endpoint(made - 1), oldToken, made == Attempts(maxRetries))
    ensures forall i :: 0 <= i < made - 1 ==> !Fatal(endpoint(i)) && !HasToken(endpoint(i))
    ensures var last := endpoint(made - 1);
            || made == Attempts(maxRetries) || Fatal(last) || HasToken(last)
            || last == NotAnObject || (last.Reply? && last.retryAfter == Unreadable)
    ensures |sleeps| == made - 1
    ensures forall i :: 0 <= i < |sleeps| ==> sleeps[i] == Pause(endpoint(i), i) && 0 <= sleeps[i] <= 30
  {
    sleeps := [];
    for attempt := 0 to Attempts(maxRetries)
      invariant |sleeps| == attempt && attempt < Attempts(maxRetries)
      invariant forall i :: 0 <= i < attempt ==> Retryable(endpoint(i))
      invariant forall i :: 0 <= i < attempt ==> !Fatal(endpoint(i)) && !HasToken(endpoint(i))
      invariant forall i :: 0 <= i < attempt ==> sleeps[i] == Pause(endpoint(i), i) && 0 <= sleeps[i] <= MAX_SLEEP
    {
      var post := endpoint(attempt);
      PermanentIsFatal(post);
      made := attempt + 1;
      match post
      case NetworkFailure =>
        if made >= maxRetries {
          return TokenResult(false, "", "", "network_error", false), made, sleeps;
        }
        sleeps := sleeps + [Min(PowerOfTwo(attempt), 8)];
      case NotAnObject =>
        return TokenResult(false, "", "", "internal_error", false), made, sleeps;
      case Reply(status, access, refresh, _, _, retryAfter) =>
        if status == 200 && access != "" {
          return TokenResult(true, access, if refresh != "" then refresh else oldToken, "", false), made, sleeps;
        }
        if Permanent(post) || made >= maxRetries {
          return TokenResult(false, "", "", Code(post), Permanent(post)), made, sleeps;
        }
        match retryAfter
        case Unreadable => return TokenResult(false, "", "", "internal_error", false), made, sleeps;
        case Seconds(n) => sleeps := sleeps + [Min(n, MAX_SLEEP)];
        case NotDigits => sleeps := sleeps + [Min(PowerOfTwo(attempt), 8)];
    }
    // The code's trailing "unknown" result: the last attempt always returns.
    assert false;
  }

  // ----- The result for one account

  /** The result the worker gets; `mailbox` is the verdict of the health check, made in health jobs only. */
  function AccountOutcome(r: TokenResult, health: bool, mailbox: bool): AccountResult {
    if !r.ok then AccountResult(false, "", r.errorCode, r.permanent, health)
    else if health && !mailbox then AccountResult(false, r.refreshToken, "imap_failed", false, true)
    else AccountResult(true, r.refreshToken, "", false, health)
  }

  /** The endpoint's own error code is the one the worker uses for a failed mailbox check. */
  predicate SaysImapFailed(p: Post) {
    p.Reply? && !Granted(p) && p.error == "imap_failed" && !Permanent(p)
  }

  lemma ImapFailedCode(p: Post)
    requires p.Reply?
    ensures Code(p) == "imap_failed" <==> p.error == "imap_failed"
  {
    if p.error == "" { assert Code(p)[0] == 'h'; }
  }

  /**
   Every result of a job on an account with a token is one the life-cycle allows for, and it is mistaken for a
   failed mailbox check exactly if the endpoint's last answer, not cut short, carries that error code.
   */
  lemma OutcomeProducible(p: Post, oldToken: string, exhausted: bool, health: bool, mailbox: bool)
    requires oldToken != ""
    ensures var r := AccountOutcome(Verdict(p, oldToken, exhausted), health, mailbox);
            Producible(r) && (Impersonates(r) <==> SaysImapFailed(p) && exhausted)
  {
    if p.Reply? { ImapFailedCode(p); }
    assert "network_error"[0] != "imap_failed"[0] && "internal_error"[1] != "imap_failed"[1];
  }

  /**
   Token rotation: whatever the mailbox check says, the account's token changes only if the endpoint granted
   the request, and then to the token it returned, or to the one that was sent if it returned none.
   */
  lemma RotatesOnlyIfGranted(
    p: Post, a: Account, exhausted: bool, health: bool, mailbox: bool, now: Time, intervalDays: int)
    requires a.token != ""
    ensures var b := Apply(a, AccountOutcome(Verdict(p, a.token, exhausted), health, mailbox), now, intervalDays);
            && b.token != ""
            && b.token == (if HasToken(p) && p.refreshToken != "" then p.refreshToken else a.token)
            && b.tokenExpires == (if HasToken(p) then Some(now + 90 * 86400) else a.tokenExpires)
  {
  }

  /** What the last answer and the mailbox check make of the account's status and of its next refresh. */
  lemma StatusOfAnswer(
    p: Post, a: Account, exhausted: bool, health: bool, mailbox: bool, now: Time, intervalDays: int)
    requires a.token != ""
    ensures var b := Apply(a, AccountOutcome(Verdict(p, a.token, exhausted), health, mailbox), now, intervalDays);
            var mistaken := p.Reply? && p.error == "imap_failed" && exhausted;
            && b.status == (if HasToken(p) && !health then Refreshed
                            else if HasToken(p) then (if mailbox then Healthy else FetchFailed)
                            else if Fatal(p) then TokenInvalid else if mistaken then FetchFailed else TransientError)
            && b.nextRefresh == (if HasToken(p) then Some(now + intervalDays * 86400) else if Fatal(p) then None
                                 else if mistaken then a.nextRefresh else Some(now + 86400))
            && (b.errorCode == None <==> HasToken(p) && (health ==> mailbox))
  {
    PermanentIsFatal(p);
    if p.Reply? { ImapFailedCode(p); }
    assert "network_error"[0] != "imap_failed"[0] && "internal_error"[1] != "imap_failed"[1];
  }

  /** The error code kept with an account is what the endpoint said, a status or a failure of ours, cut to 80. */
  lemma ErrorOfAnswer(p: Post, a: Account, exhausted: bool, health: bool, mailbox: bool, now: Time, intervalDays: int)
    requires a.token != "" && !HasToken(p)
    ensures var b := Apply(a, AccountOutcome(Verdict(p, a.token, exhausted), health, mailbox), now, intervalDays);
            var said := if p.Reply? && (Fatal(p) || exhausted) then Code(p)
                        else if p == NetworkFailure then "network_error" else "internal_error";
            b.errorCode == Some(if |said| <= 80 then said else said[..80])
  {
    PermanentIsFatal(p);
  }

  /** Without a `Retry-After` the pauses double from one second up to eight; with one they follow it up to thirty. */
  lemma PausesAre(p: Post, attempt: nat)
    ensures var waits := p.Reply? && p.retryAfter.Seconds?;
            && (waits ==> Pause(p, attempt) == if p.retryAfter.n <= 30 then p.retryAfter.n else 30)
            && (!waits ==> Pause(p, attempt) == if attempt == 0 then 1 else if attempt == 1 then 2
                                                else if attempt == 2 then 4 else 8)
  {
    if attempt >= 3 { PowerGrows(attempt); }
  }

  lemma {:induction false} PowerGrows(n: nat)
    requires n >= 3
    ensures PowerOfTwo(n) >= 8
  {
    if n > 3 { PowerGrows(n - 1); }
  }
}
