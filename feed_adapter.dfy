/**
 * The feed adapter (`WitnessChainAdapter`): every call is a POST that carries
 * the session cookie, is tried at most five times, logs in again after a 401
 * on any endpoint other than the two login endpoints, and rebuilds the cookie
 * from the cookie-pairs of the Set-Cookie headers (section 4.1.1 of RFC 6265
 * gives the `name=value; name=value` shape of the Cookie header).
 *
 * The network is an oracle: the reply to the n-th request the adapter sends,
 * counting from its creation, is `net(n)`.
 */
module FeedAdapter {
  import opened Wrappers
  import Text

  const MaxAttempts := 5
  const PreLogin := "pre-login"
  const LoginApi := "login"
  const AllCampaigns := "all-campaigns"
  const PhotoFeed := "photo-feed-from-campaign"

  /** The JSON values the feed returns, with JavaScript's `undefined`. */
  datatype Json =
    | Undefined
    | Null
    | Bool(b: bool)
    | Num(n: int)
    | Str(s: string)
    | Arr(items: seq<Json>)
    | Obj(fields: map<string, Json>)

  predicate Truthy(v: Json) {
    match v
    case Undefined => false
    case Null => false
    case Bool(b) => b
    case Num(n) => n != 0
    case Str(s) => s != ""
    case Arr(_) => true
    case Obj(_) => true
  }

  predicate Nullish(v: Json) {
    v == Undefined || v == Null
  }

  /**
   * The reply to one POST: either the request resolved, with its status, its
   * Set-Cookie headers and `response.data.result` (None when `response.data`
   * is missing, so that reading `.result` throws), or it was rejected with an
   * AxiosError carrying the status of its response (None: no response at all).
   */
  datatype Reply =
    | Answered(status: int, setCookie: seq<string>, result: Option<Json>)
    | Rejected(errorStatus: Option<int>)

  /** A request as the adapter sends it: the endpoint and the Cookie header. The body is not modelled. */
  datatype Request = Request(api: string, cookie: string)

  /** What `doPost` does: returns the result, returns nothing after five attempts, or throws. */
  datatype PostResult = Returned(value: Json) | Exhausted | Escaped

  predicate IsLoginEndpoint(api: string) {
    api == PreLogin || api == LoginApi
  }

  /** The cookie-pair of a Set-Cookie header: its text before the first ';'. */
  function CookiePair(setCookie: string): (p: string)
    ensures ';' !in p && Text.StartsWith(setCookie, p)
  {
    Text.BeforeFirst(setCookie, ';')
  }

  /** The Cookie header rebuilt from Set-Cookie headers: each cookie-pair followed by "; ". */
  function CookieHeader(setCookies: seq<string>): string {
    if setCookies == [] then "" else CookiePair(setCookies[0]) + "; " + CookieHeader(setCookies[1..])
  }

  /** Appending one Set-Cookie header appends its pair and "; ", as the accumulating loop does. */
  lemma {:induction false} CookieHeaderSnoc(setCookies: seq<string>, c: string)
    ensures CookieHeader(setCookies + [c]) == CookieHeader(setCookies) + CookiePair(c) + "; "
  {
    if setCookies != [] {
      assert (setCookies + [c])[1..] == setCookies[1..] + [c];
      CookieHeaderSnoc(setCookies[1..], c);
    }
  }

  /** The i-th piece of the rebuilt header split at ';': a space (except first), then the i-th pair (none after the last). */
  function HeaderPiece(setCookies: seq<string>, i: nat): string
    requires i <= |setCookies|
  {
    (if i == 0 then "" else " ") + (if i < |setCookies| then CookiePair(setCookies[i]) else "")
  }

  /** The pieces of the rebuilt header, built the way the header is. */
  function HeaderPieces(setCookies: seq<string>): (r: seq<string>)
    ensures |r| == |setCookies| + 1
  {
    if setCookies == [] then [""]
    else
      var rest := HeaderPieces(setCookies[1..]);
      [CookiePair(setCookies[0])] + [" " + rest[0]] + rest[1..]
  }

  /** The pieces are the cookie-pairs, each after the first preceded by a space, then a lone space. */
  lemma {:induction false} HeaderPiecesAre(setCookies: seq<string>)
    ensures forall i :: 0 <= i <= |setCookies| ==> HeaderPieces(setCookies)[i] == HeaderPiece(setCookies, i)
  {
    if setCookies != [] {
      HeaderPiecesAre(setCookies[1..]);
    }
  }

  /** Splitting the rebuilt header at each ';' gives back its pieces, hence the cookie-pairs. */
  lemma {:induction false} CookieHeaderSplits(setCookies: seq<string>)
    ensures Text.Split(CookieHeader(setCookies), ';') == HeaderPieces(setCookies)
  {
    if setCookies == [] {
      Text.SplitEmpty(';');
    } else {
      var pair := CookiePair(setCookies[0]);
      var h := CookieHeader(setCookies[1..]);
      assert CookieHeader(setCookies) == pair + [';'] + ([' '] + h);
      SplitAfterPair(pair, h);
      CookieHeaderSplits(setCookies[1..]);
    }
  }

  /** A pair without ';' followed by "; " is split off as the first piece; the space joins the next piece. */
  lemma SplitAfterPair(pair: string, h: string)
    requires ';' !in pair
    ensures Text.Split(pair + [';'] + ([' '] + h), ';') == [pair] + [[' '] + Text.Split(h, ';')[0]] + Text.Split(h, ';')[1..]
  {
    Text.SplitAround(pair, ';', [' '] + h);
    Text.BeforeFirstWhole(pair, ';');
    assert Text.Split(pair, ';') == [pair];
    SplitCons(' ', h, ';');
  }

  /** A first character other than the separator joins the first piece. */
  lemma SplitCons(x: char, y: string, c: char)
    requires x != c
    ensures Text.Split([x] + y, c) == [[x] + Text.Split(y, c)[0]] + Text.Split(y, c)[1..]
  {
    assert ([x] + y)[1..] == y;
    var head := Text.BeforeFirst(y, c);
    assert Text.BeforeFirst([x] + y, c) == [x] + head;
    if |head| < |y| {
      assert ([x] + y)[|head| + 2..] == y[|head| + 1..];
    }
  }

  predicate SomeSessionCookie(setCookies: seq<string>) {
    exists i :: 0 <= i < |setCookies| && Text.StartsWith(setCookies[i], "__")
  }

  /** The stored cookie is replaced by the rebuilt header only when some Set-Cookie starts with "__". */
  function UpdateCookies(cookies: string, setCookies: seq<string>): (r: string)
    ensures !SomeSessionCookie(setCookies) ==> r == cookies
    ensures SomeSessionCookie(setCookies) ==> r == CookieHeader(setCookies)
  {
    if SomeSessionCookie(setCookies) then CookieHeader(setCookies) else cookies
  }

  /** The loop of `doPost` over the Set-Cookie headers. */
  method CollectCookies(setCookies: seq<string>) returns (gotCookies: string, updateCookie: bool)
    ensures gotCookies == CookieHeader(setCookies)
    ensures updateCookie <==> SomeSessionCookie(setCookies)
  {
    gotCookies := "";
    updateCookie := false;
    for i := 0 to |setCookies|
      invariant gotCookies == CookieHeader(setCookies[..i])
      invariant updateCookie <==> exists j :: 0 <= j < i && Text.StartsWith(setCookies[j], "__")
    {
      if Text.StartsWith(setCookies[i], "__") {
        updateCookie := true;
      }
      CookieHeaderSnoc(setCookies[..i], setCookies[i]);
      assert setCookies[..i + 1] == setCookies[..i] + [setCookies[i]];
      gotCookies := gotCookies + CookiePair(setCookies[i]) + "; ";
    }
    assert setCookies[..|setCookies|] == setCookies;
  }

  /** What one attempt leads to: return, try again, log in and try again, or throw. */
  datatype Step = Done(value: Json) | Retry | Relogin(caught: bool) | Escape

  /**
   * One attempt of `doPost` given its reply. A 200 with data returns its
   * result; a 401 on an endpoint other than the login endpoints logs in again,
   * inside the `try` when the request resolved (so a throwing login is caught)
   * and inside the `catch` when it was rejected (so a throwing login escapes);
   * a rejection without a response throws out of `doPost`; anything else is
   * caught and tried again.
   */
  function Attempt(api: string, reply: Reply): (s: Step)
    ensures s.Done? <==> reply.Answered? && reply.status == 200 && reply.result.Some?
    ensures s.Done? ==> s.value == reply.result.value
    ensures s.Escape? <==> reply == Rejected(None)
    ensures s.Relogin? <==>
      (!IsLoginEndpoint(api) && ((reply.Answered? && reply.status == 401) || reply == Rejected(Some(401))))
    ensures s.Relogin? ==> (s.caught <==> reply.Answered?)
  {
    match reply
    case Answered(status, _, result) =>
      if status == 200 && result.Some? then Done(result.value)
      else if status == 401 && !IsLoginEndpoint(api) then Relogin(true)
      else Retry
    case Rejected(None) => Escape
    case Rejected(Some(status)) =>
      if status == 401 && !IsLoginEndpoint(api) then Relogin(false) else Retry
  }

  function CookiesAfter(cookies: string, reply: Reply): string {
    match reply
    case Answered(_, setCookie, _) => UpdateCookies(cookies, setCookie)
    case Rejected(_) => cookies
  }

  /** The adapter's session: the stored cookie and every request sent so far. */
  datatype Conn = Conn(cookies: string, sent: seq<Request>)

  datatype PostRun = PostRun(result: PostResult, conn: Conn, attempts: nat)

  /** The requests of the login handshake: pre-login, then login unless pre-login gave nothing. */
  datatype Exchange = Exchange(preLogin: PostResult, login: Option<PostResult>, conn: Conn)

  function Rank(api: string): nat {
    if IsLoginEndpoint(api) then 0 else 2
  }

  predicate Extends(a: Conn, b: Conn) {
    |a.sent| <= |b.sent| && b.sent[..|a.sent|] == a.sent
  }

  predicate OnlyTo(api: string, a: Conn, b: Conn)
    requires Extends(a, b)
  {
    forall i :: |a.sent| <= i < |b.sent| ==> b.sent[i].api == api
  }

  /**
   * `doPost(api)` from attempt number `attempts` on. At most five attempts
   * are made; the log only grows; on the two login endpoints every request
   * sent is to that endpoint, one per attempt.
   */
  function DoPostFrom(api: string, attempts: nat, st: Conn, net: nat -> Reply): (r: PostRun)
    requires attempts < MaxAttempts
    ensures attempts < r.attempts <= MaxAttempts
    ensures r.result.Exhausted? ==> r.attempts == MaxAttempts
    ensures Extends(st, r.conn) && |r.conn.sent| >= |st.sent| + r.attempts - attempts
    ensures IsLoginEndpoint(api) ==> OnlyTo(api, st, r.conn) && |r.conn.sent| == |st.sent| + r.attempts - attempts
    decreases Rank(api), MaxAttempts - attempts
  {
    var reply := net(|st.sent|);
    var next := Conn(CookiesAfter(st.cookies, reply), st.sent + [Request(api, st.cookies)]);
    match Attempt(api, reply)
    case Done(v) => PostRun(Returned(v), next, attempts + 1)
    case Escape => PostRun(Escaped, next, attempts + 1)
    case Retry =>
      if attempts + 1 == MaxAttempts then PostRun(Exhausted, next, MaxAttempts)
      else DoPostFrom(api, attempts + 1, next, net)
    case Relogin(caught) =>
      var e := LoginExchange(next, net);
      if !caught && LoginThrows(e) then PostRun(Escaped, e.conn, attempts + 1)
      else if attempts + 1 == MaxAttempts then PostRun(Exhausted, e.conn, MaxAttempts)
      else DoPostFrom(api, attempts + 1, e.conn, net)
  }

  /** `doPost(api)` from its first attempt: between one and five attempts, and the request log only grows. */
  function DoPostSpec(api: string, st: Conn, net: nat -> Reply): (r: PostRun)
    ensures 1 <= r.attempts <= MaxAttempts
    ensures r.result.Exhausted? ==> r.attempts == MaxAttempts
    ensures Extends(st, r.conn) && |r.conn.sent| >= |st.sent| + r.attempts
    ensures IsLoginEndpoint(api) ==> OnlyTo(api, st, r.conn) && |r.conn.sent| == |st.sent| + r.attempts
  {
    DoPostFrom(api, 0, st, net)
  }

  /**
   * The handshake `login` runs: pre-login, and login only when pre-login
   * returned something truthy (signing the challenge is not modelled).
   */
  function LoginExchange(st: Conn, net: nat -> Reply): (e: Exchange)
    ensures Extends(st, e.conn)
    ensures e.login.None? ==> OnlyTo(PreLogin, st, e.conn)
    ensures e.login.None? <==> e.preLogin.Escaped? || !(e.preLogin.Returned? && Truthy(e.preLogin.value))
    decreases 1, 0
  {
    var pre := DoPostFrom(PreLogin, 0, st, net);
    if pre.result.Escaped? || !(pre.result.Returned? && Truthy(pre.result.value)) then
      Exchange(pre.result, None, pre.conn)
    else
      var login := DoPostFrom(LoginApi, 0, pre.conn, net);
      Exchange(pre.result, Some(login.result), login.conn)
  }

  predicate LoginThrows(e: Exchange) {
    e.preLogin.Escaped? || (e.login.Some? && e.login.value.Escaped?)
  }

  /** What `login()` resolves to, or that it throws. */
  datatype LoginResult = LoggedIn(ok: bool) | LoginThrew

  /**
   * `login()` as written: false when pre-login gave nothing; otherwise
   * `loginResult !== null`, which is true also when the login request was
   * exhausted, because `doPost` then returns `undefined`.
   */
  function LoginOutcomeAsWritten(e: Exchange): (r: LoginResult)
    ensures r == LoginThrew <==> LoginThrows(e)
    // It differs from the intended outcome exactly when the login request gave `undefined`: exhausted, or answered so.
    ensures r != LoginOutcome(e) <==>
      !LoginThrows(e) && e.login.Some? && (e.login.value.Exhausted? || e.login.value == Returned(Undefined))
  {
    if LoginThrows(e) then LoginThrew
    else if e.login.None? then LoggedIn(false)
    else LoggedIn(!(e.login.value.Returned? && e.login.value.value == Null))
  }

  /** `login()` as evidently intended: true only when the login endpoint returned a value. */
  function LoginOutcome(e: Exchange): (r: LoginResult)
    ensures r == LoggedIn(true) ==> e.login.Some? && e.login.value.Returned? && !Nullish(e.login.value.value)
    ensures r == LoginThrew <==> LoginThrows(e)
    ensures r == LoggedIn(false) ==> e.login.None? || e.login.value.Exhausted? || Nullish(e.login.value.value)
  {
    if LoginThrows(e) then LoginThrew
    else if e.login.None? then LoggedIn(false)
    else LoggedIn(e.login.value.Returned? && !Nullish(e.login.value.value))
  }

  /** A network that never answers the login request with 200 makes `login()` as written report success. */
  lemma LoginReportsExhaustedLogin()
    ensures var net := (n: nat) => if n == 0 then Answered(200, [], Some(Obj(map["message" := Str("challenge")])))
                                   else Rejected(Some(500));
            var e := LoginExchange(Conn("", []), net);
            && e.login == Some(Exhausted)
            && LoginOutcomeAsWritten(e) == LoggedIn(true)
            && LoginOutcome(e) == LoggedIn(false)
  {
    var net := (n: nat) => if n == 0 then Answered(200, [], Some(Obj(map["message" := Str("challenge")])))
                           else Rejected(Some(500));
    var st := Conn("", []);
    var pre := DoPostFrom(PreLogin, 0, st, net);
    assert pre.result == Returned(Obj(map["message" := Str("challenge")]));
    var c1 := pre.conn;
    assert |c1.sent| == 1;
    var c2 := Conn(c1.cookies, c1.sent + [Request(LoginApi, c1.cookies)]);
    var c3 := Conn(c2.cookies, c2.sent + [Request(LoginApi, c2.cookies)]);
    var c4 := Conn(c3.cookies, c3.sent + [Request(LoginApi, c3.cookies)]);
    var c5 := Conn(c4.cookies, c4.sent + [Request(LoginApi, c4.cookies)]);
    assert DoPostFrom(LoginApi, 4, c5, net).result == Exhausted;
    assert DoPostFrom(LoginApi, 3, c4, net).result == Exhausted;
    assert DoPostFrom(LoginApi, 2, c3, net).result == Exhausted;
    assert DoPostFrom(LoginApi, 1, c2, net).result == Exhausted;
    assert DoPostFrom(LoginApi, 0, c1, net).result == Exhausted;
  }

  /** Without a truthy pre-login result, `login()` sends no login request and resolves to false. */
  lemma LoginEarlyExit(st: Conn, net: nat -> Reply)
    requires var pre := DoPostFrom(PreLogin, 0, st, net).result;
      pre.Exhausted? || (pre.Returned? && !Truthy(pre.value))
    ensures var e := LoginExchange(st, net);
      && LoginOutcome(e) == LoggedIn(false) && LoginOutcomeAsWritten(e) == LoggedIn(false)
      && forall i :: |st.sent| <= i < |e.conn.sent| ==> e.conn.sent[i].api != LoginApi
  {
  }

  /** A 200 with data returns its result at once, after a single request. */
  lemma SuccessReturnsAtOnce(api: string, attempts: nat, st: Conn, net: nat -> Reply)
    requires attempts < MaxAttempts
    requires net(|st.sent|).Answered? && net(|st.sent|).status == 200 && net(|st.sent|).result.Some?
    ensures var r := DoPostFrom(api, attempts, st, net);
      r.result == Returned(net(|st.sent|).result.value) && |r.conn.sent| == |st.sent| + 1
  {
  }

  /** A 401 on an endpoint other than the login endpoints is followed by a pre-login request. */
  lemma UnauthorizedLogsIn(api: string, attempts: nat, st: Conn, net: nat -> Reply)
    requires attempts < MaxAttempts && !IsLoginEndpoint(api)
    requires net(|st.sent|) == Rejected(Some(401)) || (net(|st.sent|).Answered? && net(|st.sent|).status == 401)
    ensures var r := DoPostFrom(api, attempts, st, net);
      |r.conn.sent| > |st.sent| + 1 && r.conn.sent[|st.sent|].api == api && r.conn.sent[|st.sent| + 1].api == PreLogin
  {
    var reply := net(|st.sent|);
    var next := Conn(CookiesAfter(st.cookies, reply), st.sent + [Request(api, st.cookies)]);
    assert Attempt(api, reply).Relogin?;
    var e := LoginExchange(next, net);
    var r := DoPostFrom(api, attempts, st, net);
    assert Extends(e.conn, r.conn) by {
      if r.conn != e.conn {
        assert r.conn == DoPostFrom(api, attempts + 1, e.conn, net).conn;
      }
    }
    ExchangeStartsWithPreLogin(next, net);
    var k := |next.sent|;
    assert r.conn.sent[k] == r.conn.sent[..|e.conn.sent|][k] == e.conn.sent[k];
    assert r.conn.sent[k - 1] == r.conn.sent[..|e.conn.sent|][k - 1] == e.conn.sent[k - 1] == next.sent[k - 1];
  }

  /** The handshake's first new request is a pre-login request. */
  lemma ExchangeStartsWithPreLogin(st: Conn, net: nat -> Reply)
    ensures var e := LoginExchange(st, net);
      |e.conn.sent| > |st.sent| && e.conn.sent[|st.sent|].api == PreLogin
  {
    var pre := DoPostFrom(PreLogin, 0, st, net);
    var e := LoginExchange(st, net);
    assert pre.conn.sent[|st.sent|].api == PreLogin;
    assert Extends(pre.conn, e.conn);
    assert e.conn.sent[|st.sent|] == e.conn.sent[..|pre.conn.sent|][|st.sent|];
  }

  /** A request following a reply that set a "__" cookie carries the header rebuilt from that reply. */
  lemma NextRequestCarriesNewCookie(api: string, attempts: nat, st: Conn, net: nat -> Reply)
    requires attempts + 1 < MaxAttempts
    requires net(|st.sent|).Answered? && net(|st.sent|).status != 200 && net(|st.sent|).status != 401
    requires SomeSessionCookie(net(|st.sent|).setCookie)
    ensures var r := DoPostFrom(api, attempts, st, net);
      |r.conn.sent| > |st.sent| + 1 && r.conn.sent[|st.sent| + 1].cookie == CookieHeader(net(|st.sent|).setCookie)
  {
    var reply := net(|st.sent|);
    var next := Conn(CookiesAfter(st.cookies, reply), st.sent + [Request(api, st.cookies)]);
    var r := DoPostFrom(api, attempts + 1, next, net);
    assert r.conn.sent[..|next.sent| + 1][|next.sent|] == r.conn.sent[|next.sent|];
  }

  datatype AdapterError = PrivateKeyRequired | CampaignIdRequired | RequestThrew

  /** The adapter object: its session cookie and the requests it has sent. */
  class WitnessChainAdapter {
    const privateKey: string
    var cookies: string
    var sent: seq<Request>

    constructor(privateKey: string)
      requires privateKey != ""
      ensures this.privateKey == privateKey && cookies == "" && sent == []
    {
      this.privateKey := privateKey;
      cookies := "";
      sent := [];
    }

    /** `doPost(api, data)`: the do-while over at most five attempts. */
    method DoPost(api: string, net: nat -> Reply) returns (r: PostResult, attempts: nat)
      modifies this
      ensures PostRun(r, Conn(cookies, sent), attempts) == DoPostSpec(api, Conn(old(cookies), old(sent)), net)
      decreases Rank(api), 0
    {
      ghost var start := Conn(cookies, sent);
      attempts := 0;
      r := Exhausted;
      while attempts < MaxAttempts
        invariant attempts <= MaxAttempts
        invariant attempts < MaxAttempts ==> DoPostFrom(api, attempts, Conn(cookies, sent), net) == DoPostSpec(api, start, net)
        invariant attempts == MaxAttempts ==> PostRun(Exhausted, Conn(cookies, sent), attempts) == DoPostSpec(api, start, net)
        invariant r == Exhausted
        decreases MaxAttempts - attempts
      {
        attempts := attempts + 1;
        var reply := net(|sent|);
        sent := sent + [Request(api, cookies)];
        if reply.Answered? {
          var gotCookies, updateCookie := CollectCookies(reply.setCookie);
          if updateCookie {
            cookies := gotCookies;
          }
        }
        match Attempt(api, reply) {
          case Done(v) =>
            r := Returned(v);
            return;
          case Escape =>
            r := Escaped;
            return;
          case Retry =>
          case Relogin(caught) =>
            var loggedIn := Login(net);
            if !caught && loggedIn == LoginThrew {
              r := Escaped;
              return;
            }
        }
      }
    }

    /** `login()` as written: pre-login, then login unless pre-login gave nothing. */
    method Login(net: nat -> Reply) returns (r: LoginResult)
      modifies this
      ensures var e := LoginExchange(Conn(old(cookies), old(sent)), net);
        r == LoginOutcomeAsWritten(e) && Conn(cookies, sent) == e.conn
      decreases 1, 0
    {
      var pre, _ := DoPost(PreLogin, net);
      if pre.Escaped? {
        return LoginThrew;
      }
      if !(pre.Returned? && Truthy(pre.value)) {
        return LoggedIn(false);
      }
      var login, _ := DoPost(LoginApi, net);
      if login.Escaped? {
        return LoginThrew;
      }
      // `loginResult !== null`: an exhausted login gives `undefined`, which is not null.
      r := LoggedIn(!(login.Returned? && login.value == Null));
    }

    /** `getCampaigns()`: the campaigns, or `[]` when `doPost` gave nothing. */
    method GetCampaigns(net: nat -> Reply) returns (r: Result<Json, AdapterError>)
      modifies this
      ensures var run := DoPostSpec(AllCampaigns, Conn(old(cookies), old(sent)), net);
        && Conn(cookies, sent) == run.conn
        && r == (match run.result
                 case Escaped => Err(RequestThrew)
                 case Exhausted => Ok(Arr([]))
                 case Returned(v) => Ok(if Nullish(v) then Arr([]) else v))
    {
      var campaigns, _ := DoPost(AllCampaigns, net);
      match campaigns
      case Escaped => r := Err(RequestThrew);
      case Exhausted => r := Ok(Arr([]));
      case Returned(v) => r := Ok(if Nullish(v) then Arr([]) else v);
    }

    /** `getCampaignPhotos(campaign, since)`: a missing campaign id is rejected before any request. */
    method GetCampaignPhotos(campaign: Option<string>, net: nat -> Reply) returns (r: Result<Json, AdapterError>)
      modifies this
      ensures (campaign.None? || campaign.value == "") ==> r == Err(CampaignIdRequired) && unchanged(this)
      ensures campaign.Some? && campaign.value != "" ==>
        var run := DoPostSpec(PhotoFeed, Conn(old(cookies), old(sent)), net);
        && Conn(cookies, sent) == run.conn
        && r == (match run.result
                 case Escaped => Err(RequestThrew)
                 case Exhausted => Ok(Undefined)
                 case Returned(v) => Ok(v))
    {
      if campaign.None? || campaign.value == "" {
        return Err(CampaignIdRequired);
      }
      var photos, _ := DoPost(PhotoFeed, net);
      match photos
      case Escaped => r := Err(RequestThrew);
      case Exhausted => r := Ok(Undefined);
      case Returned(v) => r := Ok(v);
    }
  }

  /** `new WitnessChainAdapter(privateKey)`: a missing or empty key throws. */
  method NewAdapter(privateKey: Option<string>) returns (r: Option<WitnessChainAdapter>)
    ensures r.None? <==> privateKey.None? || privateKey.value == ""
    ensures r.Some? ==> fresh(r.value) && r.value.cookies == "" && r.value.sent == []
  {
    if privateKey.None? || privateKey.value == "" {
      return None;
    }
    var adapter := new WitnessChainAdapter(privateKey.value);
    r := Some(adapter);
  }
}
