// The Malfini importer (wholesaler `hurtownia6`): a REST API behind a bearer
// token.  The token is kept in a transient and refreshed or obtained again by
// logging in; API responses are cached per endpoint; the product loop only
// classifies records, since creating and updating a product are stubs that
// write nothing.

module Malfini {
  import opened Php
  import opened Records
  import opened Shop
  import Attributes

  const AuthFailed := "Nie można uwierzytelnić w API Malfini. Sprawdź ustawienia API."
  const ProductsFailed := "Nie można pobrać danych produktów z API Malfini."
  const DefaultApiUrl := "https://api.malfini.com"
  const LoginPath := "/api/v4/api-auth/login"
  const RefreshPath := "/api/v4/api-auth/refresh"
  const ProductsEndpoint := "/api/v4/product"
  const StocksEndpoint := "/api/v4/stock"
  const CategoriesEndpoint := "/api/v4/category"
  /** How long the token transient lives, in seconds. */
  const TokenLifetime := 86400
  /** How long a cached response lives, in seconds. */
  const ResponseLifetime := 3600

  /** The `hurtownia6_*` settings the importer reads. */
  datatype Config = Config(apiUrl: string, username: string, password: string)

  /** `rtrim($api_url, '/')` with the default URL, and the credentials ('' when unset). */
  function ConfigOf(settings: map<string, string>): Config
  {
    Config(if "hurtownia6_api_url" in settings then RTrimSlashes(settings["hurtownia6_api_url"]) else DefaultApiUrl,
           if "hurtownia6_username" in settings then settings["hurtownia6_username"] else "",
           if "hurtownia6_password" in settings then settings["hurtownia6_password"] else "")
  }

  /** What a login or refresh answer decodes to when it holds an `access_token`. */
  datatype Grant = Grant(access: string, refresh: string, expiresIn: int)

  /** A request the importer sends. */
  datatype Request =
    | LoginRequest(url: string, username: string, password: string)
    | RefreshRequest(url: string, token: string)
    | GetRequest(url: string, bearer: string)

  /**
   * The server's answer: a WP_Error, or a status code with the body decoded
   * as a token grant (login, refresh) and as product records (GET).
   */
  datatype Reply = Down | Answer(code: int, grant: Option<Grant>, data: Option<seq<Record>>)

  /** The `kc_hurtownie_malfini_token` transient: the tokens, `expires_at`, and when the transient itself expires. */
  datatype Stored = Stored(access: string, refresh: string, expiresAt: int, until: int)

  /** A cached response (`kc_hurtownie_malfini_<md5(endpoint)>`) and when it expires. */
  datatype Cached = Cached(data: seq<Record>, until: int)

  /**
   * Everything the token and request code reads and writes: the two token
   * fields, the token transient, the response transients keyed by endpoint,
   * the requests sent so far and the replies the server has yet to give.
   */
  datatype Session = Session(access: string, refresh: string, token: Option<Stored>,
                             cache: map<string, Cached>, sent: seq<Request>, net: seq<Reply>)

  /** The reply the next request gets; a server that has nothing more to say is down. */
  function Next(net: seq<Reply>): Reply
  {
    if net == [] then Down else net[0]
  }

  /** The replies left once the next one has been given. */
  function Rest(net: seq<Reply>): seq<Reply>
  {
    if net == [] then [] else net[1..]
  }

  /** A reply `isset($data['access_token'])` accepts. */
  predicate Granting(reply: Reply)
  {
    reply.Answer? && reply.grant.Some?
  }

  /** A transient WordPress still returns at time now. */
  predicate Live(t: Option<Stored>, now: int)
  {
    t.Some? && now <= t.value.until
  }

  /** A cache entry `get_transient` returns as truthy data at time now. */
  predicate Hit(cache: map<string, Cached>, key: string, now: int)
  {
    key in cache && now <= cache[key].until && cache[key].data != []
  }

  datatype Exchange = Exchange(s: Session, reply: Reply)

  /** Sending q: it is logged and the next reply is consumed. */
  function Sent(s: Session, q: Request): (x: Exchange)
    ensures x.s.sent == s.sent + [q] && x.reply == Next(s.net) && x.s.net == Rest(s.net)
    ensures x.s.(sent := s.sent, net := s.net) == s
  {
    Exchange(s.(sent := s.sent + [q], net := Rest(s.net)), Next(s.net))
  }

  /** Saving a grant: both token fields, and the transient with `expires_at = now + expires_in`. */
  function Granted(s: Session, g: Grant, now: int): Session
  {
    s.(access := g.access, refresh := g.refresh,
       token := Some(Stored(g.access, g.refresh, now + g.expiresIn, now + TokenLifetime)))
  }

  /** The result of a token operation: the session afterwards and whether it succeeded. */
  datatype Auth = Auth(s: Session, ok: bool)

  /** The tokens of s are the ones the live transient holds. */
  predicate Holds(s: Session, now: int)
  {
    Live(s.token, now) && s.access == s.token.value.access && s.refresh == s.token.value.refresh
  }

  /**
   * The login half of `authenticate`: nothing is sent without a username and
   * a password; a reply with an access token is stored, anything else fails.
   */
  function LoginResult(s: Session, cfg: Config, now: int): (r: Auth)
    ensures Empty(cfg.username) || Empty(cfg.password) ==> r == Auth(s, false)
    ensures Truthy(cfg.username) && Truthy(cfg.password) ==>
      r.s.sent == s.sent + [LoginRequest(cfg.apiUrl + LoginPath, cfg.username, cfg.password)]
    ensures r.ok <==> Truthy(cfg.username) && Truthy(cfg.password) && Granting(Next(s.net))
    ensures r.ok ==> var g := Next(s.net).grant.value;
      Holds(r.s, now) && r.s.access == g.access && r.s.refresh == g.refresh
      && r.s.token.value.expiresAt == now + g.expiresIn
    ensures !r.ok ==> r.s.access == s.access && r.s.refresh == s.refresh && r.s.token == s.token
    ensures r.s.cache == s.cache
  {
    if Empty(cfg.username) || Empty(cfg.password) then Auth(s, false)
    else
      var x := Sent(s, LoginRequest(cfg.apiUrl + LoginPath, cfg.username, cfg.password));
      if Granting(x.reply) then Auth(Granted(x.s, x.reply.grant.value, now), true)
      else Auth(x.s, false)
  }

  /**
   * `refresh_token()`: nothing is sent without a refresh token; a reply with
   * an access token replaces both tokens and the transient.
   */
  function RefreshResult(s: Session, cfg: Config, now: int): (r: Auth)
    ensures Empty(s.refresh) ==> r == Auth(s, false)
    ensures Truthy(s.refresh) ==> r.s.sent == s.sent + [RefreshRequest(cfg.apiUrl + RefreshPath, s.refresh)]
    ensures r.ok <==> Truthy(s.refresh) && Granting(Next(s.net))
    ensures r.ok ==> var g := Next(s.net).grant.value;
      Holds(r.s, now) && r.s.access == g.access && r.s.refresh == g.refresh
      && r.s.token.value.expiresAt == now + g.expiresIn
    ensures !r.ok ==> r.s.access == s.access && r.s.refresh == s.refresh && r.s.token == s.token
    ensures r.s.cache == s.cache
  {
    if Empty(s.refresh) then Auth(s, false)
    else
      var x := Sent(s, RefreshRequest(cfg.apiUrl + RefreshPath, s.refresh));
      if Granting(x.reply) then Auth(Granted(x.s, x.reply.grant.value, now), true)
      else Auth(x.s, false)
  }

  /** The session once the tokens of a live transient have been loaded into the fields. */
  function Loaded(s: Session): Session
    requires s.token.Some?
  {
    s.(access := s.token.value.access, refresh := s.token.value.refresh)
  }

  /** A stored token that is still valid at time now. */
  predicate Unexpired(s: Session, now: int)
  {
    Live(s.token, now) && now < s.token.value.expiresAt
  }

  /**
   * `authenticate()`: a live transient loads its tokens; while unexpired they
   * are used as they are, otherwise a refresh is tried and, when it fails, a
   * full login.  Without a live transient it logs in.
   */
  function AuthResult(s: Session, cfg: Config, now: int): (r: Auth)
    ensures Unexpired(s, now) ==> r == Auth(Loaded(s), true)
    ensures r.ok ==> Holds(r.s, now)
    ensures r.s.cache == s.cache
  {
    if Live(s.token, now) then
      var s1 := Loaded(s);
      if now < s.token.value.expiresAt then Auth(s1, true)
      else
        var f := RefreshResult(s1, cfg, now);
        if f.ok then f else LoginResult(f.s, cfg, now)
    else LoginResult(s, cfg, now)
  }

  /**
   * Which requests `authenticate` sends: none for an unexpired token; a
   * refresh only for an expired live token with a refresh token; a login only
   * when no refresh succeeded and both credentials are set; the refresh
   * always before the login.
   */
  lemma AuthenticateRequests(s: Session, cfg: Config, now: int)
    ensures var r := AuthResult(s, cfg, now);
      var creds := Truthy(cfg.username) && Truthy(cfg.password);
      var login := LoginRequest(cfg.apiUrl + LoginPath, cfg.username, cfg.password);
      && (Unexpired(s, now) ==> r.s.sent == s.sent)
      && (!Live(s.token, now) ==> r.s.sent == s.sent + (if creds then [login] else []))
      && (Live(s.token, now) && !Unexpired(s, now) ==>
            var refresh := RefreshRequest(cfg.apiUrl + RefreshPath, s.token.value.refresh);
            var refreshed := Truthy(s.token.value.refresh) && Granting(Next(s.net));
            r.s.sent == s.sent + (if Truthy(s.token.value.refresh) then [refresh] else [])
                               + (if !refreshed && creds then [login] else []))
  {
    if Live(s.token, now) && !Unexpired(s, now) {
      var f := RefreshResult(Loaded(s), cfg, now);
      if !f.ok && Truthy(s.token.value.refresh) {
        var login := LoginRequest(cfg.apiUrl + LoginPath, cfg.username, cfg.password);
        var refresh := RefreshRequest(cfg.apiUrl + RefreshPath, s.token.value.refresh);
        if Truthy(cfg.username) && Truthy(cfg.password) {
          assert AuthResult(s, cfg, now).s.sent == (s.sent + [refresh]) + [login];
        }
      }
    }
  }

  /** `authenticate` succeeds exactly when the token is unexpired, a refresh is granted, or a login is. */
  lemma AuthenticateSucceeds(s: Session, cfg: Config, now: int)
    ensures var creds := Truthy(cfg.username) && Truthy(cfg.password);
      AuthResult(s, cfg, now).ok <==>
        if !Live(s.token, now) then creds && Granting(Next(s.net))
        else if Unexpired(s, now) then true
        else if Truthy(s.token.value.refresh) then
          Granting(Next(s.net)) || (creds && Granting(Next(Rest(s.net))))
        else creds && Granting(Next(s.net))
  {
    if Live(s.token, now) && !Unexpired(s, now) && Truthy(s.token.value.refresh) && !Granting(Next(s.net)) {
      var f := RefreshResult(Loaded(s), cfg, now);
      assert f.s.net == Rest(s.net);
    }
  }

  /**
   * Once `authenticate` has succeeded with a token that is valid for a
   * while, authenticating again at the same moment sends nothing and
   * changes nothing.
   */
  lemma AuthenticateAgain(s: Session, cfg: Config, now: int)
    requires AuthResult(s, cfg, now).ok
    requires now < AuthResult(s, cfg, now).s.token.value.expiresAt
    ensures var a := AuthResult(s, cfg, now); AuthResult(a.s, cfg, now) == a
  {
    var a := AuthResult(s, cfg, now);
    assert Holds(a.s, now);
    assert Loaded(a.s) == a.s;
  }

  /** `strpos($endpoint, 'language=') === false`: append `language=pl` with `?` or `&`. */
  function WithLanguage(e: string): (r: string)
    ensures Contains(r, "language=")
    ensures StartsWith(r, e)
    ensures Contains(e, "language=") ==> r == e
  {
    if Contains(e, "language=") then e
    else
      var tail := (if Contains(e, "?") then "&" else "?") + "language=pl";
      assert Contains(tail[1..], "language=") by {
        assert StartsWith(tail[1..], "language=");
      }
      ContainsSuffix(e, tail, "language=");
      assert (e + tail)[..|e|] == e;
      e + tail
  }

  /** A needle in t is also in s + t. */
  lemma {:induction false} ContainsSuffix(s: string, t: string, needle: string)
    requires Contains(t, needle)
    ensures Contains(s + t, needle)
  {
    if s != [] {
      assert (s + t)[1..] == s[1..] + t;
      ContainsSuffix(s[1..], t, needle);
    } else {
      assert s + t == t;
    }
  }

  /** Adding the language parameter twice is adding it once. */
  lemma WithLanguageIdempotent(e: string)
    ensures WithLanguage(WithLanguage(e)) == WithLanguage(e)
  {
  }

  /** The result of `get_api_data`: the session afterwards and the data (None for `false`). */
  datatype Got = Got(s: Session, data: Option<seq<Record>>)

  /**
   * The end of `get_api_data` for the reply it settled on: anything but a
   * 200 with non-empty decoded data is `false`; good data is cached for an
   * hour under the endpoint.
   */
  function AcceptResult(s: Session, reply: Reply, key: string, now: int): (g: Got)
    ensures g.data.Some? <==> reply.Answer? && reply.code == 200 && reply.data.Some? && reply.data.value != []
    ensures g.data.Some? ==> g.data == reply.data && g.s == s.(cache := s.cache[key := Cached(reply.data.value, now + ResponseLifetime)])
    ensures g.data.None? ==> g.s == s
  {
    if reply.Answer? && reply.code == 200 && reply.data.Some? && reply.data.value != [] then
      Got(s.(cache := s.cache[key := Cached(reply.data.value, now + ResponseLifetime)]), reply.data)
    else Got(s, None)
  }

  /**
   * `get_api_data` once a token is at hand: a cache hit answers without a
   * request; otherwise one GET, and on a 401 one refresh and, when that
   * succeeds, one more GET with the new token.
   */
  function RequestResult(s: Session, cfg: Config, now: int, endpoint: string): (g: Got)
    ensures Hit(s.cache, WithLanguage(endpoint), now) ==> g == Got(s, Some(s.cache[WithLanguage(endpoint)].data))
  {
    var key := WithLanguage(endpoint);
    var url := cfg.apiUrl + key;
    if Hit(s.cache, key, now) then Got(s, Some(s.cache[key].data))
    else
      var x := Sent(s, GetRequest(url, s.access));
      if x.reply.Answer? && x.reply.code == 401 then
        var f := RefreshResult(x.s, cfg, now);
        if !f.ok then Got(f.s, None)
        else
          var y := Sent(f.s, GetRequest(url, f.s.access));
          AcceptResult(y.s, y.reply, key, now)
      else AcceptResult(x.s, x.reply, key, now)
  }

  /** `get_api_data($endpoint)`: authenticate first when there is no access token. */
  function ApiResult(s: Session, cfg: Config, now: int, endpoint: string): (g: Got)
    ensures Truthy(s.access) ==> g == RequestResult(s, cfg, now, endpoint)
  {
    if Empty(s.access) then
      var a := AuthResult(s, cfg, now);
      if a.ok then RequestResult(a.s, cfg, now, endpoint) else Got(a.s, None)
    else RequestResult(s, cfg, now, endpoint)
  }

  /** The requests one `get_api_data` call sends once it holds a token: at most one retry, after one refresh. */
  predicate OneRetry(t: seq<Request>, url: string, bearer: string)
  {
    || t == []
    || t == [GetRequest(url, bearer)]
    || (|t| == 2 && t[0] == GetRequest(url, bearer) && t[1].RefreshRequest?)
    || (|t| == 3 && t[0] == GetRequest(url, bearer) && t[1].RefreshRequest? && t[2].GetRequest? && t[2].url == url)
  }

  /**
   * With a token at hand, a call sends nothing on a cache hit and otherwise
   * at most GET, refresh, GET; the refresh and the retry happen only after
   * a 401.
   */
  lemma RequestRetriesOnce(s: Session, cfg: Config, now: int, endpoint: string)
    ensures var g := RequestResult(s, cfg, now, endpoint);
      |s.sent| <= |g.s.sent| && g.s.sent[..|s.sent|] == s.sent
      && OneRetry(g.s.sent[|s.sent|..], cfg.apiUrl + WithLanguage(endpoint), s.access)
      && (Hit(s.cache, WithLanguage(endpoint), now) <==> g.s.sent == s.sent)
      && (|g.s.sent| > |s.sent| + 1 ==> (Next(s.net).Answer? && Next(s.net).code == 401))
  {
    var key := WithLanguage(endpoint);
    var url := cfg.apiUrl + key;
    var g := RequestResult(s, cfg, now, endpoint);
    if !Hit(s.cache, key, now) {
      var x := Sent(s, GetRequest(url, s.access));
      if x.reply.Answer? && x.reply.code == 401 {
        var f := RefreshResult(x.s, cfg, now);
        if f.ok {
          var y := Sent(f.s, GetRequest(url, f.s.access));
          assert g.s.sent == s.sent + [GetRequest(url, s.access), RefreshRequest(cfg.apiUrl + RefreshPath, x.s.refresh), GetRequest(url, f.s.access)];
        } else if Truthy(x.s.refresh) {
          assert g.s.sent == s.sent + [GetRequest(url, s.access), RefreshRequest(cfg.apiUrl + RefreshPath, x.s.refresh)];
        } else {
          assert g.s.sent == s.sent + [GetRequest(url, s.access)];
        }
      } else {
        assert g.s.sent == s.sent + [GetRequest(url, s.access)];
      }
    }
  }

  /** A call that returns data leaves that data in the cache for the endpoint, fresh for an hour. */
  lemma RequestCaches(s: Session, cfg: Config, now: int, endpoint: string)
    ensures var g := RequestResult(s, cfg, now, endpoint);
      g.data.Some? ==> Hit(g.s.cache, WithLanguage(endpoint), now) && g.s.cache[WithLanguage(endpoint)].data == g.data.value
  {
  }

  /** Asking for the same endpoint again at the same moment is answered from the cache, with no request. */
  lemma ApiDataAgain(s: Session, cfg: Config, now: int, endpoint: string)
    requires ApiResult(s, cfg, now, endpoint).data.Some?
    ensures var g := ApiResult(s, cfg, now, endpoint);
      Truthy(g.s.access) ==> ApiResult(g.s, cfg, now, endpoint) == g
  {
    var g := ApiResult(s, cfg, now, endpoint);
    if Empty(s.access) {
      RequestCaches(AuthResult(s, cfg, now).s, cfg, now, endpoint);
    } else {
      RequestCaches(s, cfg, now, endpoint);
    }
  }

  /**
   * The data `get_api_data` returns is what some cache entry or some 200 reply
   * held, and never empty: `false` covers every failure.
   */
  lemma RequestData(s: Session, cfg: Config, now: int, endpoint: string)
    ensures var g := RequestResult(s, cfg, now, endpoint);
      g.data.Some? ==> (g.data.value != [] &&
        (Hit(s.cache, WithLanguage(endpoint), now) ||
         (Next(s.net).Answer? && Next(s.net).code == 200 && g.data == Next(s.net).data) ||
         (Next(s.net).Answer? && Next(s.net).code == 401)))
  {
  }

  /** `import_product` asks for `id` and `name`. */
  predicate Complete(r: Record)
  {
    Isset(r, "id") && Isset(r, "name")
  }

  /**
   * `import_product`: a record without id or name is an error; otherwise the
   * SKU (`code`, '' when unset) is looked up, and the stub update or create
   * is counted.
   */
  function MalfiniStep(products: map<string, Product>, r: Record): (o: Outcome)
    ensures o == Failed <==> !Complete(r)
    ensures o == Updated <==> Complete(r) && FieldOr(r, "code", "") in products
    ensures o == Imported <==> Complete(r) && FieldOr(r, "code", "") !in products
  {
    if !Complete(r) then Failed
    else if FieldOr(r, "code", "") in products then Updated
    else Imported
  }

  /** The outcomes of the records in order; the catalog is never written. */
  function MalfiniRun(products: map<string, Product>, rs: seq<Record>): (os: seq<Outcome>)
    ensures |os| == |rs|
  {
    if rs == [] then []
    else MalfiniRun(products, rs[..|rs| - 1]) + [MalfiniStep(products, rs[|rs| - 1])]
  }

  /** The number of records without id or name. */
  function Incomplete(rs: seq<Record>): nat
  {
    if rs == [] then 0
    else Incomplete(rs[..|rs| - 1]) + (if Complete(rs[|rs| - 1]) then 0 else 1)
  }

  /**
   * Every record moves exactly one of imported, updated and errors; the
   * errors are exactly the records without id or name; nothing is skipped.
   */
  lemma {:induction false} MalfiniRunCounts(products: map<string, Product>, rs: seq<Record>)
    ensures var c := Tally(MalfiniRun(products, rs));
      c.imported + c.updated + c.errors == |rs| && c.skipped == 0 && c.errors == Incomplete(rs)
  {
    if rs != [] {
      MalfiniRunCounts(products, rs[..|rs| - 1]);
      TallySnoc(MalfiniRun(products, rs[..|rs| - 1]), MalfiniStep(products, rs[|rs| - 1]));
    }
  }

  /** The outcome of each record depends on that record and the catalog only. */
  lemma {:induction false} MalfiniRunEach(products: map<string, Product>, rs: seq<Record>, i: nat)
    requires i < |rs|
    ensures MalfiniRun(products, rs)[i] == MalfiniStep(products, rs[i])
  {
    if i < |rs| - 1 {
      MalfiniRunEach(products, rs[..|rs| - 1], i);
    }
  }

  /** The Malfini import. */
  class MalfiniImporter {
    const stats: Stats
    const cfg: Config
    const options: Options
    const catalog: Catalog
    const site: Site
    /** `$this->access_token` and `$this->refresh_token`. */
    var accessToken: string
    var refreshToken: string
    /** The token transient. */
    var token: Option<Stored>
    /** The response transients, keyed by endpoint. */
    var cache: map<string, Cached>
    /** The requests sent, and the replies still to come. */
    var sent: seq<Request>
    var net: seq<Reply>

    ghost function State(): Session
      reads this
    {
      Session(accessToken, refreshToken, token, cache, sent, net)
    }

    constructor (settings: map<string, string>, token: Option<Stored>, cache: map<string, Cached>,
                 net: seq<Reply>, catalog: Catalog, site: Site)
      ensures fresh(stats) && stats.Valid() && stats.outcomes == [] && stats.total == 0
      ensures State() == Session("", "", token, cache, [], net)
      ensures cfg == ConfigOf(settings) && options == OptionsOf(settings)
      ensures this.catalog == catalog && this.site == site
    {
      stats := new Stats();
      cfg := ConfigOf(settings);
      options := OptionsOf(settings);
      this.catalog := catalog;
      this.site := site;
      accessToken, refreshToken := "", "";
      this.token := token;
      this.cache := cache;
      sent := [];
      this.net := net;
    }

    /** One request over the wire. */
    method Send(q: Request) returns (reply: Reply)
      modifies this`sent, this`net
      ensures Exchange(State(), reply) == Sent(old(State()), q)
    {
      reply := if net == [] then Down else net[0];
      sent := sent + [q];
      net := if net == [] then [] else net[1..];
    }

    /** Both token fields and the token transient. */
    method Store(g: Grant, now: int)
      modifies this`accessToken, this`refreshToken, this`token
      ensures State() == Granted(old(State()), g, now)
    {
      accessToken := g.access;
      refreshToken := g.refresh;
      token := Some(Stored(g.access, g.refresh, now + g.expiresIn, now + TokenLifetime));
    }

    /** The login half of `authenticate()`. */
    method Login(now: int) returns (ok: bool)
      modifies this`accessToken, this`refreshToken, this`token, this`sent, this`net
      ensures Auth(State(), ok) == LoginResult(old(State()), cfg, now)
    {
      if Empty(cfg.username) || Empty(cfg.password) {
        return false;
      }
      var reply := Send(LoginRequest(cfg.apiUrl + LoginPath, cfg.username, cfg.password));
      ok := Granting(reply);
      if ok {
        Store(reply.grant.value, now);
      }
    }

    /** `refresh_token()`. */
    method RefreshToken(now: int) returns (ok: bool)
      modifies this`accessToken, this`refreshToken, this`token, this`sent, this`net
      ensures Auth(State(), ok) == RefreshResult(old(State()), cfg, now)
    {
      if Empty(refreshToken) {
        return false;
      }
      var reply := Send(RefreshRequest(cfg.apiUrl + RefreshPath, refreshToken));
      ok := Granting(reply);
      if ok {
        Store(reply.grant.value, now);
      }
    }

    /** `authenticate()`. */
    method Authenticate(now: int) returns (ok: bool)
      modifies this`accessToken, this`refreshToken, this`token, this`sent, this`net
      ensures Auth(State(), ok) == AuthResult(old(State()), cfg, now)
    {
      if token.Some? && now <= token.value.until {
        accessToken := token.value.access;
        refreshToken := token.value.refresh;
        if now < token.value.expiresAt {
          return true;
        }
        ok := RefreshToken(now);
        if ok {
          return;
        }
      }
      ok := Login(now);
    }

    /** The part of `get_api_data` after the token check. */
    method Request(now: int, endpoint: string) returns (data: Option<seq<Record>>)
      modifies this`accessToken, this`refreshToken, this`token, this`cache, this`sent, this`net
      ensures Got(State(), data) == RequestResult(old(State()), cfg, now, endpoint)
    {
      var key := WithLanguage(endpoint);
      var url := cfg.apiUrl + key;
      if key in cache && now <= cache[key].until && cache[key].data != [] {
        return Some(cache[key].data);
      }
      var reply := Send(GetRequest(url, accessToken));
      if reply.Answer? && reply.code == 401 {
        var ok := RefreshToken(now);
        if !ok {
          return None;
        }
        reply := Send(GetRequest(url, accessToken));
      }
      if reply.Answer? && reply.code == 200 && reply.data.Some? && reply.data.value != [] {
        cache := cache[key := Cached(reply.data.value, now + ResponseLifetime)];
        data := reply.data;
      } else {
        data := None;
      }
    }

    /** `get_api_data($endpoint)`. */
    method GetApiData(now: int, endpoint: string) returns (data: Option<seq<Record>>)
      modifies this`accessToken, this`refreshToken, this`token, this`cache, this`sent, this`net
      ensures Got(State(), data) == ApiResult(old(State()), cfg, now, endpoint)
    {
      if Empty(accessToken) {
        var ok := Authenticate(now);
        if !ok {
          return None;
        }
      }
      data := Request(now, endpoint);
    }

    /**
     * `import()`: the attribute taxonomies, the token, the products (failing
     * without them), the stocks and categories (fetched, then unused), and the
     * product loop.  The counters are not reset: they start at 0 with the
     * importer.
     */
    method Import(now: int) returns (result: RunResult)
      requires stats.Valid()
      modifies this`accessToken, this`refreshToken, this`token, this`cache, this`sent, this`net,
               stats, site`attributeSlugs, site`taxonomies
      ensures stats.Valid()
      ensures site.attributeSlugs == old(site.attributeSlugs)
                                   + Attributes.Accepted(Attributes.ToCreate(Attributes.Standard, old(site.attributeSlugs)), site.refusedAttributes)
      ensures !AuthResult(old(State()), cfg, now).ok ==>
        && result == Failure(AuthFailed) && State() == AuthResult(old(State()), cfg, now).s
        && stats.outcomes == old(stats.outcomes)
      ensures var a := AuthResult(old(State()), cfg, now);
        var p := ApiResult(a.s, cfg, now, ProductsEndpoint);
        a.ok && p.data.None? ==>
          result == Failure(ProductsFailed) && State() == p.s && stats.outcomes == old(stats.outcomes)
      ensures var a := AuthResult(old(State()), cfg, now);
        var p := ApiResult(a.s, cfg, now, ProductsEndpoint);
        a.ok && p.data.Some? ==>
          var st := ApiResult(p.s, cfg, now, StocksEndpoint);
          && State() == ApiResult(st.s, cfg, now, CategoriesEndpoint).s
          && stats.total == |p.data.value|
          && stats.outcomes == old(stats.outcomes)
                             + MalfiniRun(catalog.products, p.data.value[..Reached(|p.data.value|, options.limit)])
          && result == Success(stats.total, stats.Value())
    {
      Attributes.InitAttributes(site);
      var ok := Authenticate(now);
      if !ok {
        return Failure(AuthFailed);
      }
      var products := GetApiData(now, ProductsEndpoint);
      if products.None? {
        return Failure(ProductsFailed);
      }
      var stocks := GetApiData(now, StocksEndpoint);
      var categories := GetApiData(now, CategoriesEndpoint);
      stats.total := |products.value|;
      ImportEach(products.value);
      result := Success(stats.total, stats.Value());
    }

    /** `import_product`: the catalog is only read. */
    method ImportProduct(r: Record) returns (o: Outcome)
      ensures o == MalfiniStep(catalog.products, r)
    {
      if !Isset(r, "id") || !Isset(r, "name") {
        return Failed;
      }
      var sku := FieldOr(r, "code", "");
      if sku in catalog.products {
        o := Updated;
      } else {
        o := Imported;
      }
    }

    /** `import_product` and the counter it moves. */
    method ImportCounted(r: Record) returns (o: Outcome)
      requires stats.Valid()
      modifies stats`imported, stats`updated, stats`skipped, stats`errors, stats`outcomes
      ensures stats.Valid() && stats.outcomes == old(stats.outcomes) + [o]
      ensures o == MalfiniStep(catalog.products, r)
    {
      o := ImportProduct(r);
      stats.Count(o);
    }

    /** The `foreach` over the products, stopping once `import_limit` records have been processed. */
    method ImportEach(rs: seq<Record>)
      requires stats.Valid()
      modifies stats`imported, stats`updated, stats`skipped, stats`errors, stats`outcomes
      ensures stats.Valid()
      ensures stats.outcomes == old(stats.outcomes) + MalfiniRun(catalog.products, rs[..Reached(|rs|, options.limit)])
    {
      ghost var o0 := stats.outcomes;
      ghost var products := catalog.products;
      ghost var n := Reached(|rs|, options.limit);
      var limit := options.limit;
      var count := 0;
      var i := 0;
      while i < |rs|
        invariant 0 <= i <= n && count == i
        invariant stats.Valid()
        invariant stats.outcomes == o0 + MalfiniRun(products, rs[..i])
      {
        if limit > 0 && count >= limit {
          break;
        }
        assert rs[..i + 1][..i] == rs[..i];
        ghost var prev := MalfiniRun(products, rs[..i]);
        var o := ImportCounted(rs[i]);
        assert stats.outcomes == o0 + (prev + [o]);
        assert MalfiniRun(products, rs[..i + 1]) == prev + [o];
        count := count + 1;
        i := i + 1;
      }
      assert i == n;
    }
  }
}
