/** Account creation, login and token extraction of the API-gateway memory
    lock test. Replies to the signup and login requests are inputs. */
module GatewayAuth {

  import opened Wrappers
  import opened Strings

  /* ---------------- extractCookieValue ---------------- */

  /** The pattern `name=([^;]+)` matches at index `i` of `header`: `name=` is
      there and followed by at least one character other than `;`. */
  predicate MatchAt(header: string, name: string, i: nat)
  {
    i + |name| + 1 < |header| && header[i..i + |name|] == name
    && header[i + |name|] == '=' && header[i + |name| + 1] != ';'
  }

  /** Leftmost match position at or after `i`, as a regular-expression search scans. */
  function FirstMatchFrom(header: string, name: string, i: nat): (r: Option<nat>)
    requires i <= |header|
    ensures r.Some? ==>
      i <= r.value && MatchAt(header, name, r.value) && forall j: nat :: i <= j < r.value ==> !MatchAt(header, name, j)
    ensures r.None? ==> forall j: nat :: i <= j ==> !MatchAt(header, name, j)
    decreases |header| - i
  {
    if i == |header| then None
    else if MatchAt(header, name, i) then Some(i)
    else FirstMatchFrom(header, name, i + 1)
  }

  /** The greedy `[^;]+` part: the run of non-`;` characters from `j`. */
  function RunFrom(header: string, j: nat): (v: string)
    requires j <= |header|
    ensures j + |v| <= |header| && header[j..j + |v|] == v && ';' !in v
    ensures j + |v| == |header| || header[j + |v|] == ';'
    decreases |header| - j
  {
    if j == |header| || header[j] == ';' then "" else [header[j]] + RunFrom(header, j + 1)
  }

  /** `extractCookieValue(header, name)`: the first capture group of
      `new RegExp(name + "=([^;]+)")`, or `null`. It is the maximal run of
      non-`;` characters after the leftmost `name=` that is followed by one. */
  function ExtractCookieValue(header: string, name: string): (r: Option<string>)
    ensures r.None? <==> forall i: nat :: !MatchAt(header, name, i)
    ensures r.Some? ==> |r.value| > 0 && ';' !in r.value
    ensures r.Some? ==> exists i: nat :: FirstValueAt(header, name, i, r.value)
  {
    match FirstMatchFrom(header, name, 0)
    case None => None
    case Some(i) =>
      var v := RunFrom(header, i + |name| + 1);
      assert header[i + |name| + 1] in v;
      assert FirstValueAt(header, name, i, v);
      Some(v)
  }

  /** `value` is the maximal non-`;` run following the leftmost match, at `i`. */
  predicate FirstValueAt(header: string, name: string, i: nat, value: string)
  {
    && MatchAt(header, name, i)
    && (forall j: nat :: j < i ==> !MatchAt(header, name, j))
    && var start := i + |name| + 1;
       && start + |value| <= |header|
       && header[start..start + |value|] == value
       && (start + |value| == |header| || header[start + |value|] == ';')
  }

  /* ---------------- performLogin ---------------- */

  /** One element of the Set-Cookie value: a string, or some other value
      together with its JavaScript truthiness. */
  datatype HeaderEntry = Text(s: string) | NonText(truthy: bool)

  /** A response header field: absent, a single value, or an array. */
  datatype CookieField = Absent | Single(entry: HeaderEntry) | Several(entries: seq<HeaderEntry>)

  predicate Truthy(f: CookieField)
  {
    match f
    case Absent => false
    case Single(Text(s)) => s != ""
    case Single(NonText(t)) => t
    case Several(_) => true
  }

  /** `headers['Set-Cookie'] || headers['set-cookie'] || []`, then wrapped
      into an array unless it is one already. */
  function CookieArray(upper: CookieField, lower: CookieField): seq<HeaderEntry>
  {
    var f := if Truthy(upper) then upper else if Truthy(lower) then lower else Several([]);
    match f
    case Absent => []
    case Single(e) => [e]
    case Several(es) => es
  }

  /** Which header field the loop reads: the capitalised one when it is
      truthy, else the lower-case one when that is truthy, else none. An
      array is read as it is; a single value becomes a one-element array. */
  lemma CookieArrayChoice(upper: CookieField, lower: CookieField)
    ensures upper.Several? ==> CookieArray(upper, lower) == upper.entries
    ensures Truthy(upper) && upper.Single? ==> CookieArray(upper, lower) == [upper.entry]
    ensures !Truthy(upper) && lower.Several? ==> CookieArray(upper, lower) == lower.entries
    ensures !Truthy(upper) && Truthy(lower) && lower.Single? ==> CookieArray(upper, lower) == [lower.entry]
    ensures !Truthy(upper) && !Truthy(lower) ==> CookieArray(upper, lower) == []
  {
  }

  /** A token variable of `performLogin`: `None` is `null`/`undefined`. */
  type Token = Option<string>

  predicate TokenTruthy(t: Token)
  {
    t.Some? && t.value != ""
  }

  datatype TokenPair = TokenPair(access: Token, refresh: Token)

  /** One pass of the Set-Cookie loop: a string containing `accessToken=`
      overwrites the access token only; otherwise one containing
      `refreshToken=` overwrites the refresh token; anything else is skipped. */
  function CookieStep(p: TokenPair, e: HeaderEntry): TokenPair
  {
    match e
    case NonText(_) => p
    case Text(h) =>
      if Contains(h, "accessToken=") then p.(access := ExtractCookieValue(h, "accessToken"))
      else if Contains(h, "refreshToken=") then p.(refresh := ExtractCookieValue(h, "refreshToken"))
      else p
  }

  /** The Set-Cookie loop over `headers`, left to right. */
  function CookieFold(p: TokenPair, headers: seq<HeaderEntry>): TokenPair
    decreases |headers|
  {
    if headers == [] then p else CookieFold(CookieStep(p, headers[0]), headers[1..])
  }

  /** The `for (let cookieHeader of cookieArray)` loop of `performLogin`. */
  method ScanSetCookie(headers: seq<HeaderEntry>, access0: Token, refresh0: Token)
    returns (access: Token, refresh: Token)
    ensures TokenPair(access, refresh) == CookieFold(TokenPair(access0, refresh0), headers)
  {
    access, refresh := access0, refresh0;
    for i := 0 to |headers|
      invariant CookieFold(TokenPair(access, refresh), headers[i..]) == CookieFold(TokenPair(access0, refresh0), headers)
    {
      assert headers[i..][1..] == headers[i + 1..];
      var cookieHeader := headers[i];
      if cookieHeader.Text? {
        if Contains(cookieHeader.s, "accessToken=") {
          access := ExtractCookieValue(cookieHeader.s, "accessToken");
        } else if Contains(cookieHeader.s, "refreshToken=") {
          refresh := ExtractCookieValue(cookieHeader.s, "refreshToken");
        }
      }
    }
  }

  /** The loop processes its last header last. */
  lemma {:induction false} CookieFoldSnoc(p: TokenPair, headers: seq<HeaderEntry>, e: HeaderEntry)
    ensures CookieFold(p, headers + [e]) == CookieStep(CookieFold(p, headers), e)
    decreases |headers|
  {
    if headers == [] {
      assert [e][1..] == [];
    } else {
      assert (headers + [e])[1..] == headers[1..] + [e];
      CookieFoldSnoc(CookieStep(p, headers[0]), headers[1..], e);
    }
  }

  /** Later headers overwrite earlier ones: a last header carrying
      `accessToken=` decides the access token (even when it also carries
      `refreshToken=`, and even when its value is empty, which yields `null`),
      and leaves the refresh token as the earlier headers set it. */
  lemma LastAccessHeaderWins(p: TokenPair, headers: seq<HeaderEntry>, h: string)
    requires Contains(h, "accessToken=")
    ensures CookieFold(p, headers + [Text(h)]).access == ExtractCookieValue(h, "accessToken")
    ensures CookieFold(p, headers + [Text(h)]).refresh == CookieFold(p, headers).refresh
  {
    CookieFoldSnoc(p, headers, Text(h));
  }

  /** Entries that are not strings are skipped. */
  lemma NonTextSkipped(p: TokenPair, headers: seq<HeaderEntry>, t: bool)
    ensures CookieFold(p, headers + [NonText(t)]) == CookieFold(p, headers)
  {
    CookieFoldSnoc(p, headers, NonText(t));
  }

  /** The refresh token changes only through a string that carries
      `refreshToken=` and not `accessToken=`. */
  predicate SetsRefresh(e: HeaderEntry)
  {
    e.Text? && !Contains(e.s, "accessToken=") && Contains(e.s, "refreshToken=")
  }

  lemma {:induction false} RefreshUntouchedWithoutRefreshHeader(p: TokenPair, headers: seq<HeaderEntry>)
    requires forall i :: 0 <= i < |headers| ==> !SetsRefresh(headers[i])
    ensures CookieFold(p, headers).refresh == p.refresh
    decreases |headers|
  {
    if headers != [] {
      assert !SetsRefresh(headers[0]);
      assert forall i :: 0 <= i < |headers[1..]| ==> headers[1..][i] == headers[i + 1];
      RefreshUntouchedWithoutRefreshHeader(CookieStep(p, headers[0]), headers[1..]);
    }
  }

  /** Parsed login body; `None` for a field that is absent or `null`. */
  datatype LoginBody = LoginBody(accessToken: Token, refreshToken: Token)

  /** `body` is `None` when parsing fails or the parsed value is `null`. */
  datatype LoginReply = LoginReply(status: int, durationMs: int, body: Option<LoginBody>,
                                   setCookieUpper: CookieField, setCookieLower: CookieField)

  /** A created account; the username is whatever the signup reply carried. */
  datatype Account = Account(username: Option<string>, password: string)

  /** The record `performLogin` returns; the cookie jar is not modelled. */
  datatype Tokens = Tokens(accessToken: string, refreshToken: string, username: string)

  predicate AccountUsable(account: Option<Account>)
  {
    account.Some? && account.value.username.Some? && account.value.username.value != ""
  }

  /** Both login checks: status 200 and a response time under 3 seconds. */
  predicate LoginAccepted(r: LoginReply)
  {
    r.status == 200 && r.durationMs < 3000
  }

  /** The tokens `performLogin` settles on before its final truthiness test:
      the body's when both are truthy, otherwise the Set-Cookie loop run from
      whatever the body held. */
  function ChosenTokens(r: LoginReply): TokenPair
  {
    var fromBody := if r.body.Some? then TokenPair(r.body.value.accessToken, r.body.value.refreshToken)
                    else TokenPair(None, None);
    if TokenTruthy(fromBody.access) && TokenTruthy(fromBody.refresh) then fromBody
    else CookieFold(fromBody, CookieArray(r.setCookieUpper, r.setCookieLower))
  }

  /** `performLogin`: returns the token record, or `None` for `null`.
      `loginCalls` is what it adds to the `login_calls` counter. */
  method PerformLogin(account: Option<Account>, r: LoginReply) returns (tokens: Option<Tokens>, loginCalls: nat)
    ensures loginCalls == (if AccountUsable(account) then 1 else 0)
    ensures tokens.Some? <==>
      AccountUsable(account) && LoginAccepted(r) && TokenTruthy(ChosenTokens(r).access) && TokenTruthy(ChosenTokens(r).refresh)
    ensures tokens.Some? ==>
      && tokens.value.accessToken != "" && tokens.value.refreshToken != ""
      && Some(tokens.value.username) == account.value.username
      && Some(tokens.value.accessToken) == ChosenTokens(r).access
      && Some(tokens.value.refreshToken) == ChosenTokens(r).refresh
  {
    if !AccountUsable(account) {
      return None, 0;
    }
    var username := account.value.username.value;
    loginCalls := 1;
    if !LoginAccepted(r) {
      return None, loginCalls;
    }
    var accessToken: Token := None;
    var refreshToken: Token := None;
    if r.body.Some? {
      accessToken := r.body.value.accessToken;
      refreshToken := r.body.value.refreshToken;
      if TokenTruthy(accessToken) && TokenTruthy(refreshToken) {
        return Some(Tokens(accessToken.value, refreshToken.value, username)), loginCalls;
      }
    }
    accessToken, refreshToken := ScanSetCookie(CookieArray(r.setCookieUpper, r.setCookieLower), accessToken, refreshToken);
    if !TokenTruthy(accessToken) || !TokenTruthy(refreshToken) {
      return None, loginCalls;
    }
    tokens := Some(Tokens(accessToken.value, refreshToken.value, username));
  }

  /** Tokens in the body win over Set-Cookie headers when both are there. */
  lemma BodyTokensTakePrecedence(r: LoginReply)
    requires r.body.Some? && TokenTruthy(r.body.value.accessToken) && TokenTruthy(r.body.value.refreshToken)
    ensures ChosenTokens(r) == TokenPair(r.body.value.accessToken, r.body.value.refreshToken)
  {
  }

  /* ---------------- Account selection and setup ---------------- */

  /** `(__VU - 1) % accounts.length`: virtual users take accounts in turn. */
  function AccountIndex(vu: int, count: int): (k: int)
    requires vu >= 1 && count > 0
    ensures 0 <= k < count
  {
    (vu - 1) % count
  }

  lemma MulAwayFromZero(d: int, n: int)
    requires n > 0
    ensures d >= 1 ==> d * n >= n
    ensures d <= -1 ==> d * n <= -n
  {
  }

  /** Euclidean division is determined by its quotient and remainder. */
  lemma ModUnique(a: int, n: int, q: int, r: int)
    requires n > 0 && 0 <= r < n && a == q * n + r
    ensures a % n == r
  {
    var q', r' := a / n, a % n;
    assert (q - q') * n == r' - r;
    MulAwayFromZero(q - q', n);
  }

  /** Consecutive virtual users use consecutive accounts, wrapping round. */
  lemma RoundRobin(vu: int, count: int)
    requires vu >= 1 && count > 0
    ensures AccountIndex(vu + 1, count) == if AccountIndex(vu, count) + 1 == count then 0 else AccountIndex(vu, count) + 1
    ensures AccountIndex(vu + count, count) == AccountIndex(vu, count)
  {
    var q, k := (vu - 1) / count, (vu - 1) % count;
    assert vu - 1 == q * count + k;
    if k + 1 == count {
      ModUnique(vu, count, q + 1, 0);
    } else {
      ModUnique(vu, count, q, k + 1);
    }
    ModUnique(vu - 1 + count, count, q + 1, k);
  }

  /** Username for test account `i` under `testType`; empty for any other type. */
  function Username(testType: string, i: nat): string
  {
    if testType == "complex" then "complex" + NatToString(i)
    else if testType == "redis" then "redis" + NatToString(i)
    else if testType == "simple" then "simple" + NatToString(i)
    else ""
  }

  predicate KnownTestType(testType: string)
  {
    testType == "complex" || testType == "redis" || testType == "simple"
  }

  /** Under a known test type every account number gets its own username. */
  lemma UsernamesDistinct(testType: string, i: nat, j: nat)
    requires KnownTestType(testType) && i != j
    ensures Username(testType, i) != Username(testType, j)
    ensures Username(testType, i) != ""
  {
    var p := if testType == "complex" then "complex" else if testType == "redis" then "redis" else "simple";
    if Username(testType, i) == Username(testType, j) {
      assert NatToString(i) == Username(testType, i)[|p|..] == Username(testType, j)[|p|..] == NatToString(j);
      NatToStringInjective(i, j);
    }
  }

  /** Parsed signup body; `None` for an absent `username`. */
  datatype SignupBody = SignupBody(username: Option<string>)

  /** `body` is `None` when parsing fails or yields `null`. */
  datatype SignupReply = SignupReply(status: int, durationMs: int, body: Option<SignupBody>)

  /** `performSignup` followed by the account record `setup` keeps. */
  function SignupAccount(r: SignupReply): Option<Account>
  {
    if r.status == 201 && r.durationMs < 3000 && r.body.Some? then Some(Account(r.body.value.username, "1234"))
    else None
  }

  /** The accounts created by signups lo+1 .. hi, in order. */
  function CreatedFrom(replies: seq<SignupReply>, lo: nat, hi: nat): seq<Account>
    decreases hi - lo
  {
    if lo >= hi then []
    else (match SignupAccount(ReplyFor(replies, lo)) case Some(a) => [a] case None => [])
         + CreatedFrom(replies, lo + 1, hi)
  }

  /** The reply to the signup of account `i + 1`; past the end of `replies`,
      a network failure (status 0). */
  function ReplyFor(replies: seq<SignupReply>, i: nat): SignupReply
  {
    if i < |replies| then replies[i] else SignupReply(0, 0, None)
  }

  const TestAccountsCount: nat := 100

  lemma {:induction false} CreatedFromSnoc(replies: seq<SignupReply>, lo: nat, hi: nat)
    requires lo <= hi
    ensures CreatedFrom(replies, lo, hi + 1)
      == CreatedFrom(replies, lo, hi) + (match SignupAccount(ReplyFor(replies, hi)) case Some(a) => [a] case None => [])
    decreases hi - lo
  {
    if lo < hi {
      CreatedFromSnoc(replies, lo + 1, hi);
    }
  }

  /** The usernames `setup` sends for accounts 1 .. n, in order. */
  function SignupNames(testType: string, n: nat): (names: seq<string>)
    ensures |names| == n
  {
    if n == 0 then [] else SignupNames(testType, n - 1) + [Username(testType, n)]
  }

  lemma {:induction false} SignupNamesAt(testType: string, n: nat)
    ensures forall k :: 0 <= k < n ==> SignupNames(testType, n)[k] == Username(testType, k + 1)
  {
    if n > 0 {
      SignupNamesAt(testType, n - 1);
      var prefix := SignupNames(testType, n - 1);
      forall k | 0 <= k < n
        ensures SignupNames(testType, n)[k] == Username(testType, k + 1)
      {
        if k < n - 1 {
          assert SignupNames(testType, n)[k] == prefix[k];
        }
      }
    }
  }

  /** `setup`: signs up accounts 1 .. 100 and returns the created ones, or
      `None` (the script's `null`) when none was created. `usernames` are the
      names it sent. */
  method Setup(testType: string, replies: seq<SignupReply>) returns (accounts: Option<seq<Account>>, usernames: seq<string>)
    ensures |usernames| == TestAccountsCount
    ensures forall i :: 0 <= i < TestAccountsCount ==> usernames[i] == Username(testType, i + 1)
    ensures accounts.None? <==> CreatedFrom(replies, 0, TestAccountsCount) == []
    ensures accounts.Some? ==> accounts.value == CreatedFrom(replies, 0, TestAccountsCount)
  {
    var createdAccounts: seq<Account> := [];
    usernames := [];
    for i := 1 to TestAccountsCount + 1
      invariant usernames == SignupNames(testType, i - 1)
      invariant createdAccounts == CreatedFrom(replies, 0, i - 1)
    {
      var username := Username(testType, i);
      usernames := usernames + [username];
      var account := SignupAccount(ReplyFor(replies, i - 1));
      CreatedFromSnoc(replies, 0, i - 1);
      if account.Some? {
        createdAccounts := createdAccounts + [account.value];
      }
    }
    SignupNamesAt(testType, TestAccountsCount);
    if |createdAccounts| == 0 {
      return None, usernames;
    }
    accounts := Some(createdAccounts);
  }

  /** What a virtual user's iteration does before the two refresh scenarios. */
  datatype LoginStep = NoAccounts | LoginFailed | LoggedIn(tokens: Tokens)

  /** The start of the default export: with no setup data or no accounts the
      iteration returns; a user already holding tokens keeps them; otherwise
      it logs in with account `(vu - 1) % |accounts|`. */
  method StartIteration(data: Option<seq<Account>>, vu: int, held: Option<Tokens>, r: LoginReply)
    returns (step: LoginStep, loginCalls: nat)
    requires vu >= 1
    ensures data.None? || data.value == [] ==> step == NoAccounts && loginCalls == 0
    ensures data.Some? && data.value != [] && held.Some? ==> step == LoggedIn(held.value) && loginCalls == 0
    ensures data.Some? && data.value != [] && held.None? ==>
      var account := data.value[AccountIndex(vu, |data.value|)];
      && loginCalls == (if AccountUsable(Some(account)) then 1 else 0)
      && (step.LoggedIn? <==>
            AccountUsable(Some(account)) && LoginAccepted(r) && TokenTruthy(ChosenTokens(r).access) && TokenTruthy(ChosenTokens(r).refresh))
      && (step.LoggedIn? ==>
            && Some(step.tokens.username) == account.username
            && Some(step.tokens.accessToken) == ChosenTokens(r).access
            && Some(step.tokens.refreshToken) == ChosenTokens(r).refresh)
      && (!step.LoggedIn? ==> step == LoginFailed)
  {
    if data.None? || |data.value| == 0 {
      return NoAccounts, 0;
    }
    if held.Some? {
      return LoggedIn(held.value), 0;
    }
    var accountIndex := (vu - 1) % |data.value|;
    var account := data.value[accountIndex];
    var tokens;
    tokens, loginCalls := PerformLogin(Some(account), r);
    if tokens.None? {
      return LoginFailed, loginCalls;
    }
    step := LoggedIn(tokens.value);
  }
}
