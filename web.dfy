/** The web application in front of the bot: the ad redirect and ad page, the completion
    endpoint the page calls, the Telegram webhook, and the admin login and Bearer-token checks.
    Request fields are optional values, HTTP replies are status codes, and the event-loop thread
    is reduced to whether it exists and whether it is alive when asked. */
module WebApp {
  import opened Common
  import opened Records
  import opened JsonStorage
  import opened AdRotation
  import opened BotHandling

  // ---------------------------------------------------------------------------------------------
  // /complete-ad

  /** A `user_id` from a JSON body: a number or a string. */
  datatype RawId = IntId(n: int) | TextId(s: string)

  predicate TruthyId(r: Option<RawId>) {
    match r
    case None => false
    case Some(IntId(n)) => n != 0
    case Some(TextId(s)) => s != ""
  }

  /** Python's `int(user_id)`. */
  function IdValue(r: RawId): Option<int> {
    match r
    case IntId(n) => Some(n)
    case TextId(s) => PythonInt(s)
  }

  /** `complete_ad`: 400 and no write when a field is missing or empty, 500 when the user id is
      not an integer, otherwise 200 exactly when the broker accepts the session and 403 when it
      refuses it. */
  function CompleteAdReply(states: map<int, UserState>, userId: Option<RawId>, adId: Option<string>,
                           videoId: Option<string>, token: Option<string>, now: int)
    : (r: (int, map<int, UserState>))
    ensures r.0 in {200, 400, 403, 500}
    ensures r.0 == 400 <==> !(TruthyId(userId) && Truthy(adId) && Truthy(videoId) && Truthy(token))
    ensures r.0 == 500 <==>
              TruthyId(userId) && Truthy(adId) && Truthy(videoId) && Truthy(token) &&
              IdValue(userId.value).None?
    ensures r.0 == 200 <==>
              TruthyId(userId) && Truthy(adId) && Truthy(videoId) && Truthy(token) &&
              IdValue(userId.value).Some? &&
              SessionMatches(states, IdValue(userId.value).value, videoId.value, token.value)
    ensures r.0 != 200 ==> r.1 == states
    ensures r.0 == 200 ==> CheckAdCompleted(r.1, IdValue(userId.value).value, videoId.value)
  {
    if !(TruthyId(userId) && Truthy(adId) && Truthy(videoId) && Truthy(token)) then (400, states)
    else
      match IdValue(userId.value)
      case None => (500, states)
      case Some(uid) =>
        var m := MarkCompleted(states, uid, adId.value, videoId.value, token.value, now);
        (if m.0 then 200 else 403, m.1)
  }

  /** `str()` of an int is never empty. */
  lemma NatToStringNonEmpty(n: nat)
    ensures NatToString(n) != ""
  {
  }

  /** The page reached by the redirect completes its own session: the user id it carries as text,
      together with the ad, video and token, is accepted. */
  lemma RedirectThenComplete(states: map<int, UserState>, uid: int, adId: string, videoId: string,
                             token: string, start: int, now: int)
    requires adId != "" && videoId != "" && token != ""
    ensures CompleteAdReply(states[uid := SessionRecord(adId, videoId, token, start)],
                            Some(TextId(IntToString(uid))), Some(adId), Some(videoId), Some(token), now).0 == 200
  {
    IntRoundTrip(uid);
    NatToStringNonEmpty(if uid < 0 then -uid else uid);
  }

  /** A token from an earlier session is refused once a new session has started. */
  lemma StaleTokenRefused(states: map<int, UserState>, uid: int, adId: string, videoId: string,
                          oldToken: string, newToken: string, start: int, now: int)
    requires adId != "" && videoId != "" && oldToken != "" && oldToken != newToken
    ensures CompleteAdReply(states[uid := SessionRecord(adId, videoId, newToken, start)],
                            Some(IntId(uid)), Some(adId), Some(videoId), Some(oldToken), now).0 ==
            (if uid == 0 then 400 else 403)
  {
  }

  // ---------------------------------------------------------------------------------------------
  // /ad

  /** `ad.get('url') if ad else None`, with None turned into ''. */
  function AdUrl(ads: map<string, Ad>, adId: string): (u: string)
    ensures adId in ads && ads[adId].url.Val? ==> u == ads[adId].url.value
    ensures !(adId in ads && ads[adId].url.Val?) ==> u == ""
  {
    if adId in ads && ads[adId].url.Val? then ads[adId].url.value else ""
  }

  /** The placeholder chain of `ad_page`, in its order. */
  function Substituted(html: string, user: string, adId: string, video: string, token: string,
                       url: string): string {
    var a := ReplaceAll(html, "{{USER_ID}}", user);
    var b := ReplaceAll(a, "{{AD_ID}}", adId);
    var c := ReplaceAll(b, "{{VIDEO_ID}}", video);
    var d := ReplaceAll(c, "{{TOKEN}}", token);
    ReplaceAll(d, "{{AD_URL}}", url)
  }

  datatype Page = Page(status: int, body: string)

  /** `ad_page`: 400 when a parameter is missing or empty, 500 when the template cannot be read,
      otherwise the template with its placeholders filled in. */
  function AdPage(userId: Option<string>, adId: Option<string>, videoId: Option<string>,
                  token: Option<string>, ads: map<string, Ad>, template: Option<string>): (p: Page)
    ensures p.status in {200, 400, 500}
    ensures p.status == 400 <==> !(Truthy(userId) && Truthy(adId) && Truthy(videoId) && Truthy(token))
    ensures p.status == 500 <==>
              Truthy(userId) && Truthy(adId) && Truthy(videoId) && Truthy(token) && template.None?
    ensures p.status == 200 ==>
              p.body == Substituted(template.value, userId.value, adId.value, videoId.value, token.value,
                                    AdUrl(ads, adId.value))
  {
    if !(Truthy(userId) && Truthy(adId) && Truthy(videoId) && Truthy(token)) then Page(400, "Invalid parameters")
    else if template.None? then Page(500, "Ad page unavailable")
    else Page(200, Substituted(template.value, userId.value, adId.value, videoId.value, token.value,
                               AdUrl(ads, adId.value)))
  }

  /** A text without '{' holds none of the placeholders. */
  lemma NoBraceNoPlaceholder(s: string, p: string)
    requires '{' !in s && p != [] && p[0] == '{'
    ensures !Contains(s, p)
  {
    if Contains(s, p) {
      ContainsHead(s, p);
    }
  }

  /** A template without placeholders is served as it is. */
  lemma PlainTemplateVerbatim(html: string, user: string, adId: string, video: string, token: string,
                              url: string)
    requires '{' !in html
    ensures Substituted(html, user, adId, video, token, url) == html
  {
    NoBraceNoPlaceholder(html, "{{USER_ID}}");
    ReplaceAllAbsent(html, "{{USER_ID}}", user);
    NoBraceNoPlaceholder(html, "{{AD_ID}}");
    ReplaceAllAbsent(html, "{{AD_ID}}", adId);
    NoBraceNoPlaceholder(html, "{{VIDEO_ID}}");
    ReplaceAllAbsent(html, "{{VIDEO_ID}}", video);
    NoBraceNoPlaceholder(html, "{{TOKEN}}");
    ReplaceAllAbsent(html, "{{TOKEN}}", token);
    NoBraceNoPlaceholder(html, "{{AD_URL}}");
    ReplaceAllAbsent(html, "{{AD_URL}}", url);
  }

  /** A pattern longer than the text does not occur in it. */
  lemma TooLongAbsent(s: string, p: string)
    requires |s| < |p|
    ensures !Contains(s, p)
  {
    if Contains(s, p) {
      ContainsLength(s, p);
    }
  }

  /** None of the placeholders before the token's own occurs in "{{TOKEN}}". */
  lemma TokenTemplateHasNoOtherPlaceholder()
    ensures !Contains("{{TOKEN}}", "{{USER_ID}}")
    ensures !Contains("{{TOKEN}}", "{{AD_ID}}")
    ensures !Contains("{{TOKEN}}", "{{VIDEO_ID}}")
  {
    var t := "{{TOKEN}}";
    TooLongAbsent(t, "{{USER_ID}}");
    TooLongAbsent(t, "{{VIDEO_ID}}");
    assert t[..9][2] == 'T';
    assert !StartsWith(t, "{{AD_ID}}");
    TooLongAbsent(t[1..], "{{AD_ID}}");
  }

  /** The token placeholder receives the session token as it is. */
  lemma TokenReachesPage(user: string, adId: string, video: string, token: string, url: string)
    requires '{' !in token
    ensures Substituted("{{TOKEN}}", user, adId, video, token, url) == token
  {
    var t := "{{TOKEN}}";
    TokenTemplateHasNoOtherPlaceholder();
    ReplaceAllAbsent(t, "{{USER_ID}}", user);
    ReplaceAllAbsent(t, "{{AD_ID}}", adId);
    ReplaceAllAbsent(t, "{{VIDEO_ID}}", video);
    assert t == "{{TOKEN}}" + "";
    ReplaceAllLeading("{{TOKEN}}", "", token);
    assert ReplaceAll(t, "{{TOKEN}}", token) == token;
    NoBraceNoPlaceholder(token, "{{AD_URL}}");
    ReplaceAllAbsent(token, "{{AD_URL}}", url);
  }

  // ---------------------------------------------------------------------------------------------
  // Admin authentication

  /** `auth_header.replace('Bearer ', '')`: every occurrence goes, not only the prefix. */
  function BearerToken(header: string): string {
    ReplaceAll(header, "Bearer ", "")
  }

  /** The header check of the admin routes and `verify_admin_token`: a "Bearer " header whose
      token names a session, which is then touched. */
  function Authorized(sessions: map<string, AdminSession>, header: Option<string>, t: int)
    : (r: (bool, map<string, AdminSession>))
    ensures r.0 <==> Truthy(header) && StartsWith(header.value, "Bearer ") &&
                     BearerToken(header.value) in sessions
    ensures r.1.Keys == sessions.Keys
    ensures !r.0 ==> r.1 == sessions
    ensures r.0 ==> r.1 == sessions[BearerToken(header.value) :=
                             sessions[BearerToken(header.value)].(lastActivity := t)]
  {
    if !(Truthy(header) && StartsWith(header.value, "Bearer ")) then (false, sessions)
    else
      var token := BearerToken(header.value);
      var r := TouchedSession(sessions, token, t);
      assert r.0 ==> r.1 == sessions[token := sessions[token].(lastActivity := t)];
      r
  }

  /** The token a login hands out authorizes the next request that presents it. */
  lemma LoginThenAuthorize(sessions: map<string, AdminSession>, token: string, t0: int, t: int)
    requires token != "" && !Contains(token, "Bearer ")
    ensures Authorized(sessions[token := AdminSession(t0, t0)], Some("Bearer " + token), t).0
  {
    ReplaceAllLeading("Bearer ", token, "");
    ReplaceAllAbsent(token, "Bearer ", "");
    assert "" + token == token;
    assert BearerToken("Bearer " + token) == token;
    assert ("Bearer " + token)[..7] == "Bearer ";
  }

  /** Every occurrence of the prefix goes: a doubled one leaves what the rest alone yields. */
  lemma DoubledPrefix(rest: string)
    ensures BearerToken("Bearer Bearer " + rest) == BearerToken(rest)
  {
    assert "Bearer Bearer " + rest == "Bearer " + ("Bearer " + rest);
    ReplaceAllLeading("Bearer ", "Bearer " + rest, "");
    ReplaceAllLeading("Bearer ", rest, "");
  }

  /** A logged-out token authorizes nothing. */
  lemma LogoutRevokes(sessions: map<string, AdminSession>, header: string, t: int)
    ensures !Authorized(sessions - {BearerToken(header)}, Some(header), t).0
  {
  }

  // ---------------------------------------------------------------------------------------------
  // The application

  /** The request's outcome at /ad-redirect. */
  datatype RedirectReply =
    | ClientScript          // no user id: a page that reloads with the Telegram user's id
    | NoAds                 // 500
    | BadUserId             // 500: the user id is not an integer
    | Redirect(userId: string, adId: string, videoId: string, token: string)

  /** The bot's environment. */
  datatype Env = Env(botToken: Option<string>, privateChannel: Option<string>,
                     publicChannel: Option<string>, owner: Option<string>)

  class WebServer {
    const store: JsonStore
    var loopSet: bool
    var threadExists: bool
    var handlerSet: bool

    constructor(store: JsonStore)
      ensures this.store == store && !loopSet && !threadExists && !handlerSet
    {
      this.store := store;
      loopSet, threadExists, handlerSet := false, false, false;
    }

    /** `initialize_bot`: the loop and its thread are always created; the handler is built when
        the thread came up and the environment is usable, and it stays assigned even when the
        webhook setup or the second liveness check then fails. Building the handler builds its ad
        manager, which seeds an empty ad store. */
    method InitializeBot(env: Env, aliveAtStart: bool, setupSucceeds: bool, aliveAfter: bool, now: int)
      returns (ok: bool)
      modifies this`loopSet, this`threadExists, this`handlerSet, store`ads
      ensures loopSet && threadExists
      ensures store.ads ==
                if aliveAtStart && Configure(env.botToken, env.privateChannel, env.publicChannel, env.owner).Ok?
                then Seeded(old(store.ads), now) else old(store.ads)
      ensures handlerSet <==>
                old(handlerSet) ||
                (aliveAtStart && Configure(env.botToken, env.privateChannel, env.publicChannel, env.owner).Ok?)
      ensures ok <==>
                aliveAtStart && Configure(env.botToken, env.privateChannel, env.publicChannel, env.owner).Ok? &&
                setupSucceeds && aliveAfter
    {
      loopSet := true;
      threadExists := true;
      if !aliveAtStart {
        return false;
      }
      var cfg := Configure(env.botToken, env.privateChannel, env.publicChannel, env.owner);
      if cfg.Err? {
        return false;
      }
      var handler := new BotHandler(store, cfg.value, now);
      handlerSet := true;
      if !setupSucceeds {
        return false;
      }
      ok := aliveAfter;
    }

    /** `webhook`: 503 when the loop thread exists but is dead (`alive` is its state at the
        request) or the handler or loop is missing; otherwise 500 when the body cannot be read or
        the submission fails, else 200 without waiting for the update to be processed. */
    method Webhook(alive: bool, bodyOk: bool, submitOk: bool) returns (status: int, submitted: bool)
      ensures status in {200, 500, 503}
      ensures status == 503 <==> (threadExists && !alive) || !handlerSet || !loopSet
      ensures status == 500 <==>
                !((threadExists && !alive) || !handlerSet || !loopSet) && !(bodyOk && submitOk)
      ensures submitted <==> status == 200
    {
      submitted := false;
      if threadExists && !alive {
        return 503, false;
      }
      if !handlerSet || !loopSet {
        return 503, false;
      }
      if !bodyOk {
        return 500, false;
      }
      if !submitOk {
        return 500, false;
      }
      status, submitted := 200, true;
    }

    /** `complete_ad` over the shared store. */
    method CompleteAd(userId: Option<RawId>, adId: Option<string>, videoId: Option<string>,
                      token: Option<string>, now: int) returns (status: int)
      modifies store`userStates
      ensures (status, store.userStates) ==
              CompleteAdReply(old(store.userStates), userId, adId, videoId, token, now)
    {
      if !(TruthyId(userId) && Truthy(adId) && Truthy(videoId) && Truthy(token)) {
        return 400;
      }
      var uid := IdValue(userId.value);
      if uid.None? {
        return 500;
      }
      var ok := store.MarkAdCompleted(uid.value, adId.value, videoId.value, token.value, now);
      status := if ok then 200 else 403;
    }

    /** `ad_redirect`: without a user id the client script is returned and nothing changes;
        otherwise an ad manager is built (seeding an empty store), an ad is picked, and a session
        with the fresh token is started for the user, whose redirect carries exactly that user,
        ad, video and token. */
    method AdRedirect(videoArg: Option<string>, userArg: Option<string>, token: string, now: int)
      returns (r: RedirectReply)
      modifies store`ads, store`userStates
      ensures var user := userArg.GetOr("");
              (user == "" <==> r == ClientScript) &&
              (r == ClientScript ==> store.ads == old(store.ads) && store.userStates == old(store.userStates))
      ensures var user := userArg.GetOr("");
              user != "" ==> (r == NoAds <==> ActiveIds(Seeded(old(store.ads), now)) == {})
      ensures var user := userArg.GetOr("");
              user != "" && ActiveIds(Seeded(old(store.ads), now)) == {} ==> store.ads == Seeded(old(store.ads), now)
      ensures var user := userArg.GetOr("");
              var seeded := Seeded(old(store.ads), now);
              user != "" && ActiveIds(seeded) != {} ==>
                exists k :: k in ActiveIds(seeded) && Picked(seeded, store.ads, k, now) &&
                            (r.Redirect? ==> r.adId == seeded[k].id)
      ensures r == NoAds || r == BadUserId ==> store.userStates == old(store.userStates)
      ensures r == BadUserId ==> PythonInt(userArg.GetOr("")) == None
      ensures r.Redirect? ==>
                r.userId == userArg.GetOr("") && r.videoId == videoArg.GetOr("") && r.token == token &&
                PythonInt(r.userId).Some? &&
                store.userStates == old(store.userStates)[PythonInt(r.userId).value :=
                                                          SessionRecord(r.adId, r.videoId, token, now)]
    {
      var video := videoArg.GetOr("");
      var user := userArg.GetOr("");
      if user == "" {
        return ClientScript;
      }
      var manager := new AdManager(store, now);
      var ad := manager.GetNextAd(now);
      if ad.None? {
        return NoAds;
      }
      var uid := PythonInt(user);
      if uid.None? {
        return BadUserId;
      }
      store.StartAdSession(uid.value, ad.value.id, video, token, now);
      r := Redirect(user, ad.value.id, video, token);
    }

    /** `admin_login`: 400 without a password, 403 when ADMIN_PASSWORD is unset or differs, and
        a new session under the fresh token only on an exact match. */
    method AdminLogin(password: Option<string>, adminPassword: Option<string>, token: string, t: int)
      returns (status: int, issued: Option<string>)
      modifies store`adminSessions
      ensures status in {200, 400, 403}
      ensures status == 400 <==> !Truthy(password)
      ensures status == 403 <==> Truthy(password) && (!Truthy(adminPassword) || password != adminPassword)
      ensures status == 200 <==> Truthy(password) && password == adminPassword
      ensures status == 200 ==> issued == Some(token) &&
                                store.adminSessions == old(store.adminSessions)[token := AdminSession(t, t)]
      ensures status != 200 ==> issued == None && store.adminSessions == old(store.adminSessions)
    {
      if !Truthy(password) {
        return 400, None;
      }
      if !Truthy(adminPassword) {
        return 403, None;
      }
      if password != adminPassword {
        return 403, None;
      }
      store.CreateAdminSession(token, t, t);
      status, issued := 200, Some(token);
    }

    /** The Bearer check every admin route performs before its work; false means 401. */
    method AuthorizeAdmin(header: Option<string>, t: int) returns (ok: bool)
      modifies store`adminSessions
      ensures (ok, store.adminSessions) == Authorized(old(store.adminSessions), header, t)
    {
      if !Truthy(header) || !StartsWith(header.value, "Bearer ") {
        return false;
      }
      ok := store.UpdateAdminSessionActivity(BearerToken(header.value), t);
    }

    /** `admin_logout`: deletes the presented session if there is a Bearer header, and always
        reports success. */
    method AdminLogout(header: Option<string>) returns (ok: bool)
      modifies store`adminSessions
      ensures ok
      ensures Truthy(header) && StartsWith(header.value, "Bearer ") ==>
                store.adminSessions == old(store.adminSessions) - {BearerToken(header.value)}
      ensures !(Truthy(header) && StartsWith(header.value, "Bearer ")) ==>
                store.adminSessions == old(store.adminSessions)
    {
      if Truthy(header) && StartsWith(header.value, "Bearer ") {
        store.DeleteAdminSession(BearerToken(header.value));
      }
      ok := true;
    }
  }
}
