/** The gatekeeper: the decision on one request, the cookie store, and whole runs.

    Bcrypt and base64 are parameters.  A request carries the two clock readings
    the server takes while it handles it.
*/
module Gatekeeper {
  import opened Wrappers
  import opened Text

  const WHO_AM_I := "/whoami"
  const LOGIN_PAGE := "/kflogin"
  const LIFETIME := 12 * 3600

  datatype Status = OK | ResetContent | Unauthorized | Redirect

  datatype Request = Request(
    path: string, forwardedProto: string, fromLogin: string, authorization: string, cookie: Option<string>,
    readAt: int,      // when the cookie is compared
    issueAt: int,     // when a new cookie would be stored
    newCookie: string)

  datatype Config = Config(username: string, allowHttp: bool,
                           decode: string -> Option<string>, passwordMatches: string -> bool)

  // ---------- credentials

  function Lower(s: string): (r: string)
    ensures |r| == |s|
  {
    seq(|s|, i requires 0 <= i < |s| =>
      if 'A' <= s[i] <= 'Z' then (s[i] as int - 'A' as int + 'a' as int) as char else s[i])
  }

  predicate AuthPassword(c: Config, authorization: string) {
    && "basic " <= Lower(authorization)
    && var decoded := c.decode(authorization[6..]);
       && decoded.Some?
       && var namepw := Split(decoded.value, ':');
          |namepw| == 2 && namepw[0] == c.username && c.passwordMatches(namepw[1])
  }

  /** Credentials are accepted exactly when they decode to the user name, one colon and a matching password
      without a colon of its own; a user name with a colon lets nobody in. */
  lemma AcceptedCredentials(c: Config, authorization: string)
    ensures AuthPassword(c, authorization) <==>
              && "basic " <= Lower(authorization) && ':' !in c.username
              && exists password: string :: ':' !in password && c.passwordMatches(password)
                   && c.decode(authorization[6..]) == Some(c.username + ":" + password)
  {
    if !("basic " <= Lower(authorization)) {
      return;
    }
    var decoded := c.decode(authorization[6..]);
    if AuthPassword(c, authorization) {
      SplitJoin(decoded.value, ':');
      var parts := Split(decoded.value, ':');
      assert Join(parts[1..], ':') == parts[1];
      assert parts[0] in parts && parts[1] in parts && decoded.value == c.username + ":" + parts[1];
    }
    if ':' !in c.username {
      forall password: string | ':' !in password && decoded == Some(c.username + ":" + password)
        ensures Split(decoded.value, ':') == [c.username, password]
      {
        SplitPair(c.username, password, ':');
      }
    }
  }

  function Upper(c: char): char
    requires 'a' <= c <= 'z'
  {
    (c as int - 'a' as int + 'A' as int) as char
  }

  /** The scheme is recognised in any mixture of upper and lower case. */
  lemma SchemeIgnoresCase(s: string)
    ensures "basic " <= Lower(s) <==>
              && |s| >= 6 && s[0] in {'b', 'B'} && s[1] in {'a', 'A'} && s[2] in {'s', 'S'}
              && s[3] in {'i', 'I'} && s[4] in {'c', 'C'} && s[5] == ' '
  {
    if |s| >= 6 {
      var t, basic := Lower(s), "basic ";
      forall i | 0 <= i < 6 ensures t[i] == basic[i] <==> s[i] in {basic[i], if i < 5 then Upper(basic[i]) else ' '} {
        assert 'a' <= basic[i] <= 'z' || basic[i] == ' ';
      }
      assert Upper('b') == 'B' && Upper('a') == 'A' && Upper('s') == 'S' && Upper('i') == 'I' && Upper('c') == 'C';
      assert basic <= t <==> t[..6] == basic;
      assert t[..6] == basic <==>
          t[0] == 'b' && t[1] == 'a' && t[2] == 's' && t[3] == 'i' && t[4] == 'c' && t[5] == ' ';
    }
  }

  // ---------- one request

  type Cookies = map<string, int>

  predicate AuthCookie(cookies: Cookies, r: Request) {
    r.cookie.Some? && r.cookie.value in cookies && r.readAt < cookies[r.cookie.value]
  }

  predicate HealthCheck(r: Request) {
    WHO_AM_I <= r.path
  }

  predicate Secure(c: Config, r: Request) {
    c.allowHttp || r.forwardedProto == "https"
  }

  predicate LoginPath(r: Request) {
    LOGIN_PAGE <= r.path
  }

  /** A new cookie is issued exactly to a secure request from the login page with correct credentials
      that is not already let through. */
  predicate Issues(c: Config, cookies: Cookies, r: Request) {
    && !HealthCheck(r) && Secure(c, r) && !LoginPath(r) && !AuthCookie(cookies, r)
    && AuthPassword(c, r.authorization) && r.fromLogin != ""
  }

  predicate LetIn(c: Config, cookies: Cookies, r: Request) {
    LoginPath(r) || AuthCookie(cookies, r) || AuthPassword(c, r.authorization)
  }

  function NextCookies(c: Config, cookies: Cookies, r: Request): Cookies {
    if Issues(c, cookies, r) then cookies[r.newCookie := r.issueAt + LIFETIME] else cookies
  }

  class AuthServer {
    const config: Config
    var cookies: Cookies

    constructor (config: Config)
      ensures this.config == config && cookies == map[]
    {
      this.config, this.cookies := config, map[];
    }

    method AddNewCookieValue(cookie: string, now: int)
      modifies this
      ensures cookies == old(cookies)[cookie := now + LIFETIME]
    {
      cookies := cookies[cookie := now + LIFETIME];
    }

    /** The answer and the store, first by the decisions above and then written out. */
    method ServeHTTP(r: Request) returns (status: Status)
      modifies this
      ensures cookies == NextCookies(config, old(cookies), r)
      ensures status == OK <==>
          HealthCheck(r) || (Secure(config, r) && LetIn(config, old(cookies), r) && r.fromLogin == "")
      ensures status == ResetContent <==>
                !HealthCheck(r) && Secure(config, r) && LetIn(config, old(cookies), r) && r.fromLogin != ""
      ensures status == Unauthorized <==>
                !HealthCheck(r) && Secure(config, r) && !LetIn(config, old(cookies), r) && r.fromLogin != ""
      ensures "/whoami" <= r.path ==> status == OK && cookies == old(cookies)
      ensures !("/whoami" <= r.path) && !config.allowHttp && r.forwardedProto != "https" ==>
                status == Redirect && cookies == old(cookies)
      ensures !("/whoami" <= r.path) && (config.allowHttp || r.forwardedProto == "https") ==>
                var known := r.cookie.Some? && r.cookie.value in old(cookies)
                    && r.readAt < old(cookies)[r.cookie.value];
                if "/kflogin" <= r.path || known then
                  status == (if r.fromLogin == "" then OK else ResetContent) && cookies == old(cookies)
                else if AuthPassword(config, r.authorization) then
                  if r.fromLogin == "" then status == OK && cookies == old(cookies)
                  else status == ResetContent && cookies == old(cookies)[r.newCookie := r.issueAt + 43200]
                else status == (if r.fromLogin == "" then Redirect else Unauthorized) && cookies == old(cookies)
    {
      if WHO_AM_I <= r.path {
        return OK;
      }
      if !config.allowHttp && r.forwardedProto != "https" {
        return Redirect;
      }
      if LOGIN_PAGE <= r.path || AuthCookie(cookies, r) {
        if r.fromLogin != "" {
          return ResetContent;
        }
        return OK;
      }
      if AuthPassword(config, r.authorization) {
        if r.fromLogin != "" {
          AddNewCookieValue(r.newCookie, r.issueAt);
          return ResetContent;
        }
        return OK;
      }
      if r.fromLogin != "" {
        return Unauthorized;
      }
      status := Redirect;
    }
  }

  // ---------- the history of a store

  /** A cookie issued, and when. */
  datatype Issue = Issue(cookie: string, at: int)

  /** The store after some requests, each of which may have issued a cookie. */
  function Stored(history: seq<Option<Issue>>): Cookies {
    if history == [] then map[]
    else
      var before := Stored(history[..|history| - 1]);
      match history[|history| - 1]
      case None => before
      case Some(issue) => before[issue.cookie := issue.at + LIFETIME]
  }

  ghost predicate IssuedAt(history: seq<Option<Issue>>, i: int, cookie: string) {
    0 <= i < |history| && history[i].Some? && history[i].value.cookie == cookie
  }

  /** The i-th request is the last to have been issued this cookie. */
  ghost predicate LatestIssue(history: seq<Option<Issue>>, i: int, cookie: string) {
    IssuedAt(history, i, cookie) && forall j | i < j < |history| :: !IssuedAt(history, j, cookie)
  }

  /** The store holds exactly the issued cookies, each with twelve hours from its latest issue. */
  lemma {:induction false} StoreHoldsLatestIssues(history: seq<Option<Issue>>, cookie: string)
    ensures cookie in Stored(history) <==> exists i :: LatestIssue(history, i, cookie)
    ensures forall i | LatestIssue(history, i, cookie) ::
              cookie in Stored(history) && Stored(history)[cookie] == history[i].value.at + LIFETIME
  {
    if history != [] {
      var last := |history| - 1;
      var before := history[..last];
      StoreHoldsLatestIssues(before, cookie);
      if IssuedAt(history, last, cookie) {
        assert LatestIssue(history, last, cookie);
      } else {
        forall i ensures LatestIssue(history, i, cookie) <==> LatestIssue(before, i, cookie) {
          SameIssues(history, i, cookie);
        }
      }
    }
  }

  lemma SameIssues(history: seq<Option<Issue>>, i: int, cookie: string)
    requires history != [] && !IssuedAt(history, |history| - 1, cookie)
    ensures LatestIssue(history, i, cookie) <==> LatestIssue(history[..|history| - 1], i, cookie)
  {
    var before := history[..|history| - 1];
    forall j ensures IssuedAt(history, j, cookie) <==> IssuedAt(before, j, cookie) {}
    if LatestIssue(before, i, cookie) {
      forall j | i < j < |history| ensures !IssuedAt(history, j, cookie) {}
    }
  }

  ghost predicate InTime(history: seq<Option<Issue>>) {
    forall i, j | 0 <= i < j < |history| && history[i].Some? && history[j].Some? ::
        history[i].value.at <= history[j].value.at
  }

  /** A cookie once issued is never forgotten, and on a clock that never goes back no later issue of the same value
      shortens its life. */
  lemma {:induction false} CookiesOnlyGrow(history: seq<Option<Issue>>, j: nat, cookie: string)
    requires j <= |history| && InTime(history) && cookie in Stored(history[..j])
    ensures cookie in Stored(history) && Stored(history[..j])[cookie] <= Stored(history)[cookie]
  {
    if j == |history| {
      assert history[..j] == history;
    } else {
      var last := |history| - 1;
      var before := history[..last];
      assert before[..j] == history[..j];
      CookiesOnlyGrow(before, j, cookie);
      StoreHoldsLatestIssues(before, cookie);
      var i :| LatestIssue(before, i, cookie);
      assert history[i] == before[i];
    }
  }

  // ---------- whole runs

  /** The store before the k-th request of a run. */
  function CookiesAt(c: Config, run: seq<Request>, k: nat): Cookies
    requires k <= |run|
  {
    if k == 0 then map[] else NextCookies(c, CookiesAt(c, run, k - 1), run[k - 1])
  }

  function IssueOf(c: Config, run: seq<Request>, k: nat): Option<Issue>
    requires k < |run|
  {
    if Issues(c, CookiesAt(c, run, k), run[k]) then Some(Issue(run[k].newCookie, run[k].issueAt)) else None
  }

  function History(c: Config, run: seq<Request>, k: nat): (h: seq<Option<Issue>>)
    requires k <= |run|
    ensures |h| == k
  {
    seq(k, i requires 0 <= i < k => IssueOf(c, run, i))
  }

  lemma {:induction false} HistoryExplainsCookies(c: Config, run: seq<Request>, k: nat)
    requires k <= |run|
    ensures CookiesAt(c, run, k) == Stored(History(c, run, k))
  {
    if k > 0 {
      HistoryExplainsCookies(c, run, k - 1);
      var before, history := History(c, run, k - 1), History(c, run, k);
      assert history[..k - 1] == before && history[k - 1] == IssueOf(c, run, k - 1);
      StoredNext(before, CookiesAt(c, run, k - 1), c, run[k - 1], history);
    }
  }

  lemma {:induction false} StoredNext(before: seq<Option<Issue>>, cookies: Cookies, c: Config, r: Request,
                                      history: seq<Option<Issue>>)
    requires Stored(before) == cookies && |history| == |before| + 1 && history[..|before|] == before
    requires history[|before|] == if Issues(c, cookies, r) then Some(Issue(r.newCookie, r.issueAt)) else None
    ensures Stored(history) == NextCookies(c, cookies, r)
  {
  }

  /** The clock never goes back, within and between requests. */
  ghost predicate Timely(run: seq<Request>) {
    && (forall i | 0 <= i < |run| :: run[i].readAt <= run[i].issueAt)
    && (forall i, j | 0 <= i < j < |run| :: run[i].issueAt <= run[j].readAt)
  }

  /** The i-th request came with correct credentials from the login page over an allowed scheme, was issued the
      cookie, and is the last before the k-th to have been. */
  ghost predicate Granted(c: Config, run: seq<Request>, i: int, k: nat, cookie: string)
    requires k <= |run|
  {
    && LatestIssue(History(c, run, k), i, cookie)
    && AuthPassword(c, run[i].authorization) && run[i].fromLogin != "" && Secure(c, run[i])
  }

  /** Why the k-th request of a run is let in. */
  ghost predicate Justified(c: Config, run: seq<Request>, k: nat)
    requires k < |run|
  {
    || LoginPath(run[k])
    || AuthPassword(c, run[k].authorization)
    || (run[k].cookie.Some? && exists i ::
        Granted(c, run, i, k, run[k].cookie.value) && run[k].readAt - run[i].issueAt < LIFETIME)
  }

  /** Over every run: past the health check and the scheme, a request is answered 200 or 205 exactly when it is
      justified. */
  lemma OnlyJustifiedRequestsEnter(c: Config, run: seq<Request>, k: nat)
    requires k < |run|
    ensures LetIn(c, CookiesAt(c, run, k), run[k]) <==> Justified(c, run, k)
  {
    if run[k].cookie.Some? {
      var cookie := run[k].cookie.value;
      CookieIsGranted(c, run, k, cookie);
    }
  }

  lemma CookieIsGranted(c: Config, run: seq<Request>, k: nat, cookie: string)
    requires k <= |run|
    ensures cookie in CookiesAt(c, run, k) <==> exists i :: Granted(c, run, i, k, cookie)
    ensures forall i | Granted(c, run, i, k, cookie) ::
              cookie in CookiesAt(c, run, k) && CookiesAt(c, run, k)[cookie] == run[i].issueAt + LIFETIME
  {
    HistoryExplainsCookies(c, run, k);
    StoreHoldsLatestIssues(History(c, run, k), cookie);
    forall i | LatestIssue(History(c, run, k), i, cookie)
      ensures Granted(c, run, i, k, cookie) && History(c, run, k)[i].value.at == run[i].issueAt
    {
      assert History(c, run, k)[i] == IssueOf(c, run, i);
    }
  }

  lemma {:induction false} HistoryInTime(c: Config, run: seq<Request>, k: nat)
    requires k <= |run| && Timely(run)
    ensures InTime(History(c, run, k))
  {
    var history := History(c, run, k);
    forall i, l | 0 <= i < l < k && history[i].Some? && history[l].Some?
      ensures history[i].value.at <= history[l].value.at
    {
      assert run[i].issueAt <= run[l].readAt <= run[l].issueAt;
      assert history[i] == IssueOf(c, run, i) && history[l] == IssueOf(c, run, l);
    }
  }

  /** The same for the stores along a run. */
  lemma {:induction false} CookiesSurvive(c: Config, run: seq<Request>, j: nat, k: nat, cookie: string)
    requires j <= k <= |run| && Timely(run) && cookie in CookiesAt(c, run, j)
    ensures cookie in CookiesAt(c, run, k) && CookiesAt(c, run, j)[cookie] <= CookiesAt(c, run, k)[cookie]
  {
    HistoryExplainsCookies(c, run, j);
    HistoryExplainsCookies(c, run, k);
    var history := History(c, run, k);
    assert history[..j] == History(c, run, j);
    HistoryInTime(c, run, k);
    CookiesOnlyGrow(history, j, cookie);
  }
}
