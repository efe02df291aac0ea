/** The Telegram bot: configuration parsing, the owner check, the watch-button flow (save the user,
    clear the completion flag, send the ad, poll for completion, deliver), the ad-click path and
    the broadcast tally. Telegram sends are parameters: `Delivery` for the ad DM, an optional
    message id for a video, an error text or none for a broadcast message. */
module BotHandling {
  import opened Common
  import opened Records
  import opened JsonStorage
  import opened AdRotation
  import opened MessageManagement

  // ---------------------------------------------------------------------------------------------
  // Configuration

  datatype ChannelIdError =
    | Empty            // "Channel ID cannot be empty"
    | RawIntError      // looked numeric after stripping dashes, but int() raised
    | LinkOrUsername   // an invite link or @username
    | InvalidFormat    // anything else int() rejects

  /** `_extract_channel_id`. */
  function ExtractChannelId(s: string): (r: Result<int, ChannelIdError>)
    ensures s == "" <==> r == Err(Empty)
    ensures r.Ok? ==> PythonInt(s) == Some(r.value)
    ensures r.Err? && r.error != LinkOrUsername ==> PythonInt(s) == None
    ensures r == Err(LinkOrUsername) ==> Contains(s, "https://t.me/") || Contains(s, "@")
    ensures PythonInt(s).Some? && !Contains(s, "https://t.me/") && !Contains(s, "@") ==>
              r == Ok(PythonInt(s).value)
  {
    if s == "" then Err(Empty)
    else if IsDigitString(LStrip(s, '-')) then
      match PythonInt(s)
      case Some(n) => Ok(n)
      case None => Err(RawIntError)
    else if Contains(s, "https://t.me/") || Contains(s, "@") then Err(LinkOrUsername)
    else
      match PythonInt(s)
      case Some(n) => Ok(n)
      case None => Err(InvalidFormat)
  }

  /** A digit string has no leading dash to strip. */
  lemma LStripDigits(s: string)
    requires IsDigitString(s)
    ensures LStrip(s, '-') == s
  {
  }

  /** Every channel id as `str()` renders it, negative supergroup ids included, is accepted. */
  lemma ChannelIdRoundTrip(n: int)
    ensures ExtractChannelId(IntToString(n)) == Ok(n)
  {
    IntRoundTrip(n);
    var m: nat := if n < 0 then -n else n;
    NatToStringDigits(m);
    LStripDigits(NatToString(m));
    if n < 0 {
      var s := IntToString(n);
      assert s == "-" + NatToString(m);
      assert s[1..] == NatToString(m);
      assert LStrip(s, '-') == LStrip(s[1..], '-');
    }
  }

  lemma DoubleDashStrips()
    ensures LStrip("--5", '-') == "5"
  {
    var s := "--5";
    assert s[1..] == "-5";
    assert s[1..][1..] == "5";
    assert LStrip("5", '-') == "5";
  }

  lemma DoubleDashNotInt()
    ensures PythonInt("--5") == None
  {
    var s := "--5";
    assert !IsSpace(s[0]) && !IsSpace(s[|s| - 1]);
    assert StripLeft(s) == s;
    assert StripRight(s) == s;
    assert !IsDecimalLiteral(s[1..]) by { assert s[1..][0] == '-'; }
  }

  /** `lstrip('-')` strips every leading dash, so "--5" passes the digit test and then int()
      raises; the error is not the "invalid format" one. */
  lemma DoubleDashRaises()
    ensures ExtractChannelId("--5") == Err(RawIntError)
  {
    DoubleDashStrips();
    DoubleDashNotInt();
    assert IsDigitString("5");
  }

  /** Any channel username is refused as a link or username, never as a number. */
  lemma UsernameRefused(name: string)
    ensures ExtractChannelId("@" + name) == Err(LinkOrUsername)
  {
    var s := "@" + name;
    assert s[0] == '@' && !IsDigit('@');
    assert StartsWith(s, "@");
  }

  /** `int(OWNER_ID) if OWNER_ID else None`, a failed conversion also giving None. */
  function OwnerIdFromEnv(raw: Option<string>): (r: Option<int>)
    ensures raw.None? || raw == Some("") ==> r == None
    ensures raw.Some? && raw.value != "" ==> r == PythonInt(raw.value)
  {
    if raw.None? || raw.value == "" then None else PythonInt(raw.value)
  }

  /** `_is_owner`: an owner must be configured and equal the user. */
  predicate IsOwner(owner: Option<int>, uid: int) {
    owner.Some? && uid == owner.value
  }

  /** With OWNER_ID set to a rendered id, exactly that user is the owner; without it, nobody. */
  lemma OwnerFromEnv(n: int, uid: int)
    ensures IsOwner(OwnerIdFromEnv(Some(IntToString(n))), uid) <==> uid == n
    ensures !IsOwner(OwnerIdFromEnv(None), uid)
  {
    IntRoundTrip(n);
  }

  datatype Config = Config(privateChannel: int, publicChannel: int, owner: Option<int>)

  datatype ConfigError = MissingVariables | BadChannelId(error: ChannelIdError)

  /** The environment handling of the bot's constructor: all three variables must be set and
      non-empty, then each channel id is parsed (private first); an unusable owner id disables
      the owner commands instead of failing. */
  function Configure(botToken: Option<string>, privateRaw: Option<string>, publicRaw: Option<string>,
                     ownerRaw: Option<string>): (r: Result<Config, ConfigError>)
    ensures !(Truthy(botToken) && Truthy(privateRaw) && Truthy(publicRaw)) <==> r == Err(MissingVariables)
    ensures r.Ok? ==> Ok(r.value.privateChannel) == ExtractChannelId(privateRaw.value) &&
                      Ok(r.value.publicChannel) == ExtractChannelId(publicRaw.value) &&
                      r.value.owner == OwnerIdFromEnv(ownerRaw)
    ensures r.Err? && r.error.BadChannelId? ==>
              ExtractChannelId(privateRaw.value) == Err(r.error.error) ||
              (ExtractChannelId(privateRaw.value).Ok? && ExtractChannelId(publicRaw.value) == Err(r.error.error))
  {
    if !(Truthy(botToken) && Truthy(privateRaw) && Truthy(publicRaw)) then Err(MissingVariables)
    else
      match ExtractChannelId(privateRaw.value)
      case Err(e) => Err(BadChannelId(e))
      case Ok(p) =>
        match ExtractChannelId(publicRaw.value)
        case Err(e) => Err(BadChannelId(e))
        case Ok(q) => Ok(Config(p, q, OwnerIdFromEnv(ownerRaw)))
  }

  // ---------------------------------------------------------------------------------------------
  // Callback data

  datatype Callback = AdClick | Ignore | Watch(videoId: string)

  /** The dispatch of `handle_button_click` on non-empty callback data. */
  function ParseCallback(data: string): (c: Callback)
    ensures c.AdClick? <==> StartsWith(data, "ad_click_")
    ensures c == Ignore <==> !StartsWith(data, "ad_click_") && !StartsWith(data, "watch_")
    ensures c.Watch? <==> !StartsWith(data, "ad_click_") && StartsWith(data, "watch_")
  {
    if StartsWith(data, "ad_click_") then AdClick
    else if !StartsWith(data, "watch_") then Ignore
    else Watch(ReplaceAll(data, "watch_", ""))
  }

  /** The button for a video whose id does not itself hold "watch_" leads back to that id. */
  lemma WatchRoundTrip(v: string)
    requires !Contains(v, "watch_")
    ensures ParseCallback("watch_" + v) == Watch(v)
  {
    assert ("watch_" + v)[..6] == "watch_";
    assert ("watch_" + v)[0] == 'w';
    ReplaceAllLeading("watch_", v, "");
    ReplaceAllAbsent(v, "watch_", "");
  }

  /** Scanning text free of "watch_" that is followed by "watch_" keeps that text: no occurrence
      starts inside it and runs on into the next one, since the only 'w' of "watch_" is its first
      letter. */
  lemma {:induction false} WatchScanKeeps(a: string, rest: string)
    requires !Contains(a, "watch_")
    ensures ReplaceAll(a + ("watch_" + rest), "watch_", "") == a + ReplaceAll("watch_" + rest, "watch_", "")
    decreases |a|
  {
    if a != [] {
      var s := a + ("watch_" + rest);
      assert !StartsWith(s, "watch_") by {
        if |a| >= 6 {
          assert s[..6] == a[..6];
        } else {
          assert s[|a|] == 'w' && "watch_"[|a|] != 'w';
        }
      }
      assert s == [a[0]] + (a[1..] + ("watch_" + rest));
      ReplaceAllKeeps(a[0], a[1..] + ("watch_" + rest), "watch_", "");
      WatchScanKeeps(a[1..], rest);
      assert [a[0]] + a[1..] == a;
    } else {
      assert a + ("watch_" + rest) == "watch_" + rest;
    }
  }

  /** Both occurrences of "watch_" in "watch_<a>watch_<b>" are removed. */
  lemma WatchTwiceRemoved(a: string, b: string)
    requires !Contains(a, "watch_") && !Contains(b, "watch_")
    ensures ReplaceAll("watch_" + (a + ("watch_" + b)), "watch_", "") == a + b
  {
    var t := a + ("watch_" + b);
    calc {
      ReplaceAll("watch_" + t, "watch_", "");
    == { ReplaceAllLeading("watch_", t, ""); }
      "" + ReplaceAll(t, "watch_", "");
    ==
      ReplaceAll(t, "watch_", "");
    == { WatchScanKeeps(a, b); }
      a + ReplaceAll("watch_" + b, "watch_", "");
    == { ReplaceAllLeading("watch_", b, ""); }
      a + ("" + ReplaceAll(b, "watch_", ""));
    == { ReplaceAllAbsent(b, "watch_", ""); }
      a + b;
    }
  }

  /** `replace` removes every occurrence, not only the prefix: "watch_<a>watch_<b>" asks for the
      video "<a><b>". */
  lemma WatchRemovesEveryOccurrence(a: string, b: string)
    requires !Contains(a, "watch_") && !Contains(b, "watch_")
    ensures ParseCallback("watch_" + a + "watch_" + b) == Watch(a + b)
  {
    var s := "watch_" + (a + ("watch_" + b));
    assert "watch_" + a + "watch_" + b == s;
    assert s[..6] == "watch_";
    assert s[1] == 'a' && "ad_click_"[1] == 'd';
    WatchTwiceRemoved(a, b);
  }

  /** `handle_ad_click`'s parse: the third `_`-separated part, if there are at least four. */
  function ParseAdClick(data: string): (r: Option<string>)
    ensures r.None? <==> Count(data, '_') < 3
    ensures r.Some? ==> '_' !in r.value && r.value == Split(data, '_')[2]
  {
    var parts := Split(data, '_');
    if |parts| < 4 then None else Some(parts[2])
  }

  /** With three underscore-free leading fields, the third one is the parsed ad id. */
  lemma ParseAdClickFields(a: string, b: string, c: string, rest: string)
    requires '_' !in a && '_' !in b && '_' !in c
    ensures ParseAdClick(a + "_" + b + "_" + c + "_" + rest) == Some(c)
  {
    SplitAround(c, rest, '_');
    SplitAround(b, c + "_" + rest, '_');
    SplitAround(a, b + "_" + (c + "_" + rest), '_');
    assert a + "_" + b + "_" + c + "_" + rest == a + "_" + (b + "_" + (c + "_" + rest));
    var parts := Split(a + "_" + b + "_" + c + "_" + rest, '_');
    assert parts == [a] + ([b] + ([c] + Split(rest, '_')));
    assert parts[2] == c;
  }

  /** "ad_click_<ad>_<user>" yields the ad id when the id holds no underscore. */
  lemma AdClickRoundTrip(adId: string, uid: int)
    requires '_' !in adId
    ensures ParseAdClick("ad_click_" + adId + "_" + IntToString(uid)) == Some(adId)
  {
    var u := IntToString(uid);
    assert "ad_click_" + adId + "_" + u == "ad" + "_" + "click" + "_" + adId + "_" + u;
    ParseAdClickFields("ad", "click", adId, u);
  }

  /** An ad id holding an underscore is cut at its first one: the seeded "ad_1" reads as "ad". */
  lemma UnderscoredIdMisparse(a: string, b: string, uid: int)
    requires '_' !in a
    ensures ParseAdClick("ad_click_" + (a + "_" + b) + "_" + IntToString(uid)) == Some(a)
  {
    var u := IntToString(uid);
    assert "ad_click_" + (a + "_" + b) + "_" + u == "ad" + "_" + "click" + "_" + a + "_" + (b + "_" + u);
    ParseAdClickFields("ad", "click", a, b + "_" + u);
  }

  // ---------------------------------------------------------------------------------------------
  // Polling

  const MAX_WAIT: nat := 60
  const CHECK_INTERVAL: nat := 5
  /** `max_wait_time // check_interval` checks. */
  const CHECKS: nat := MAX_WAIT / CHECK_INTERVAL

  /** Some check among the first `n` saw the completion. */
  predicate CompletedWithin(observe: nat -> bool, n: nat) {
    exists i: nat :: i < n && observe(i)
  }

  /** The poll of `handle_button_click`: `observe(i)` is what `check_ad_completed` reports at the
      i-th check. It makes at most twelve checks and stops at the first that sees completion. */
  method PollForCompletion(observe: nat -> bool) returns (completed: bool, checks: nat)
    ensures CHECKS == 12
    ensures completed <==> CompletedWithin(observe, CHECKS)
    ensures 0 < checks <= CHECKS
    ensures completed ==> observe(checks - 1) && !CompletedWithin(observe, checks - 1)
    ensures !completed ==> checks == CHECKS
  {
    completed, checks := false, 0;
    for i := 0 to CHECKS
      invariant !completed && checks == i
      invariant !CompletedWithin(observe, i)
    {
      checks := i + 1;
      if observe(i) {
        completed := true;
        return;
      }
      assert forall j: nat :: j < i + 1 && observe(j) ==> j < i;
    }
  }

  // ---------------------------------------------------------------------------------------------
  // Broadcast

  datatype Fate = Sent | Blocked | Failed

  /** The chat a broadcast goes to: the recorded user id if truthy, else the key as an int. */
  function BroadcastTarget(key: string, r: UserRecord): Option<int> {
    if r.userId.Some? && r.userId.value != 0 then r.userId else PythonInt(key)
  }

  /** Where one user ends up in the tally. `send(t)` is the error text of the send to `t`, or
      None when it went through; an error mentioning "blocked" or "forbidden" counts as blocked. */
  function BroadcastFate(key: string, r: UserRecord, send: int -> Option<string>): Fate {
    match BroadcastTarget(key, r)
    case None => Failed
    case Some(t) =>
      match send(t)
      case None => Sent
      case Some(e) =>
        var l := Lower(e);
        if Contains(l, "blocked") || Contains(l, "forbidden") then Blocked else Failed
  }

  /** A broadcast reaches the user a record was saved for: a record under the key of `n` holding
      no id, a zero id or `n` itself goes to `n`, and a non-zero recorded id is used whatever the
      key. */
  lemma BroadcastTargetOfRecord(n: int, key: string, r: UserRecord)
    ensures r.userId.None? || r.userId == Some(0) || r.userId == Some(n) ==>
              BroadcastTarget(IntToString(n), r) == Some(n)
    ensures r.userId.Some? && r.userId.value != 0 ==> BroadcastTarget(key, r) == r.userId
  {
    IntRoundTrip(n);
  }

  /** A user counts as sent exactly when there is a target and the send to it went through, as
      blocked exactly when the send's error mentions "blocked" or "forbidden" in any letter case,
      and as failed when the key is not an id or the error says anything else. */
  lemma BroadcastFateClassified(key: string, r: UserRecord, send: int -> Option<string>)
    ensures var t := BroadcastTarget(key, r);
            BroadcastFate(key, r, send) == Sent <==> t.Some? && send(t.value).None?
    ensures var t := BroadcastTarget(key, r);
            BroadcastFate(key, r, send) == Blocked <==>
              t.Some? && send(t.value).Some? &&
              (MentionsAnyCase(send(t.value).value, "blocked") ||
               MentionsAnyCase(send(t.value).value, "forbidden"))
    ensures var t := BroadcastTarget(key, r);
            BroadcastFate(key, r, send) == Failed <==>
              t.None? ||
              (send(t.value).Some? && !MentionsAnyCase(send(t.value).value, "blocked") &&
               !MentionsAnyCase(send(t.value).value, "forbidden"))
  {
    var t := BroadcastTarget(key, r);
    if t.Some? && send(t.value).Some? {
      LoweredSearch(send(t.value).value, "blocked");
      LoweredSearch(send(t.value).value, "forbidden");
    }
  }

  function FateKeys(users: map<string, UserRecord>, send: int -> Option<string>, f: Fate): set<string> {
    set k | k in users && BroadcastFate(k, users[k], send) == f
  }

  /** The three tallies partition the users, so they add up to the number of users. */
  lemma FatesPartition(users: map<string, UserRecord>, send: int -> Option<string>)
    ensures |FateKeys(users, send, Sent)| + |FateKeys(users, send, Blocked)| +
            |FateKeys(users, send, Failed)| == |users|
  {
    var s, b, f := FateKeys(users, send, Sent), FateKeys(users, send, Blocked), FateKeys(users, send, Failed);
    assert s * b == {} && (s + b) * f == {};
    assert users.Keys == s + b + f;
  }

  /** Taking `key` out of the pending set adds it to the part of `part` already tallied exactly
      when it belongs there. */
  lemma TallyStep(part: set<string>, todo: set<string>, key: string)
    requires key in todo
    ensures key in part ==> part - (todo - {key}) == (part - todo) + {key} &&
                            |part - (todo - {key})| == |part - todo| + 1
    ensures key !in part ==> part - (todo - {key}) == part - todo
  {
    if key in part {
      assert key !in part - todo;
    }
  }

  datatype BroadcastResult =
    | NotOwner
    | Usage
    | NoUsers
    | Tally(sent: nat, blocked: nat, failed: nat, total: nat)

  // ---------------------------------------------------------------------------------------------
  // The handler

  datatype AdClickOutcome = BadData | AdNotFound | NoUrl | NoPending | VideoMissing | VideoSent

  datatype ClickOutcome =
    | NoData
    | Ignored
    | AdClicked(ad: AdClickOutcome)
    | VideoNotFound
    | NotStarted
    | AdFailed
    | Delivered
    | TimedOut

  /** The message store after `_send_video_to_user`: unchanged when the video has no file handle
      or the send failed, otherwise the user's earlier messages erased and the video tracked. */
  ghost predicate VideoDelivered(m0: map<string, MsgRecord>, m: map<string, MsgRecord>, uid: int,
                                 video: Video, sentId: Option<int>, now: int)
  {
    if video.fileId.Some? && sentId.Some? then TrackedAfterErase(m0, m, uid, sentId.value, true, now)
    else m == m0
  }

  /** The pending video `handle_ad_click` reads: none without a state, without the field, or
      with an empty id. */
  function PendingVideo(states: map<int, UserState>, uid: int): (r: Option<string>)
    ensures r.Some? <==> uid in states && states[uid].pendingVideoId.Some? &&
                         states[uid].pendingVideoId.value != ""
    ensures r.Some? ==> r == states[uid].pendingVideoId
  {
    if uid in states && states[uid].pendingVideoId.Some? && states[uid].pendingVideoId.value != ""
    then states[uid].pendingVideoId else None
  }

  /** What `handle_ad_click` does for `uid` and callback `data`, from the stores before (`states0`,
      `m0`) to the stores after: each refusal is selected by the first check that fails, and only
      a pending video that exists is sent, after which the user's state is dropped. */
  ghost predicate AdClickHandled(uid: int, data: string, ads: map<string, Ad>, videos: map<string, Video>,
                                 states0: map<int, UserState>, states: map<int, UserState>,
                                 m0: map<string, MsgRecord>, m: map<string, MsgRecord>,
                                 sentId: Option<int>, now: int, o: AdClickOutcome)
  {
    var id := ParseAdClick(data);
    var linked := id.Some? && id.value in ads && !ads[id.value].url.Missing?;
    var pending := PendingVideo(states0, uid);
    (o == BadData <==> id.None?) &&
    (o == AdNotFound <==> id.Some? && id.value !in ads) &&
    (o == NoUrl <==> id.Some? && id.value in ads && ads[id.value].url.Missing?) &&
    (o == NoPending <==> linked && pending.None?) &&
    (o == VideoMissing <==> linked && pending.Some? && pending.value !in videos) &&
    (o == VideoSent <==> linked && pending.Some? && pending.value in videos) &&
    (o == VideoSent ==>
       states == states0 - {uid} && VideoDelivered(m0, m, uid, videos[pending.value], sentId, now)) &&
    (o != VideoSent ==> states == states0 && m == m0)
  }

  /** The part of the watch path from sending the ad to the end, from the stores before (`ads0`,
      `states0`, `m0`) to the stores after. The ad send selects not started, ad failed or a poll;
      the ad picked is re-saved with its rotation time and counted only when it went out; a
      completion seen within twelve checks delivers the video and clears the user's state, and a
      timeout leaves the user's new session in place. */
  ghost predicate ShowAndWait(uid: int, videoId: string, video: Video, adError: Option<string>,
                              token: string, observe: nat -> bool, sentId: Option<int>, now: int,
                              ads0: map<string, Ad>, ads: map<string, Ad>,
                              states0: map<int, UserState>, states: map<int, UserState>,
                              m0: map<string, MsgRecord>, m: map<string, MsgRecord>,
                              o: ClickOutcome, polls: nat)
  {
    var outcome := SendOutcome(adError);
    o in {NotStarted, AdFailed, Delivered, TimedOut} &&
    (o == NotStarted <==> ActiveIds(ads0) != {} && outcome == Forbidden) &&
    (o == AdFailed <==> ActiveIds(ads0) == {} || outcome == OtherFailure) &&
    (ActiveIds(ads0) == {} ==> ads == ads0) &&
    (ActiveIds(ads0) != {} ==>
       exists k :: k in ActiveIds(ads0) && ShownAd(ads0, ads, k, outcome, now) &&
         (o == TimedOut ==> states == states0[uid := SessionRecord(ads0[k].id, videoId, token, now)])) &&
    (o == NotStarted || o == AdFailed ==> polls == 0 && states == states0 && m == m0) &&
    (o == Delivered ==>
       0 < polls && observe(polls - 1) && !CompletedWithin(observe, polls - 1) &&
       states == states0[uid := Cleared] && VideoDelivered(m0, m, uid, video, sentId, now)) &&
    (o == TimedOut ==> polls == CHECKS && !CompletedWithin(observe, CHECKS) && m == m0)
  }

  /** The watch path of `handle_button_click` once the video id is known: an unknown video
      changes nothing; otherwise the completion flag is cleared and the ad is shown and waited
      for. */
  ghost predicate WatchHandled(uid: int, videoId: string, adError: Option<string>, token: string,
                               observe: nat -> bool, sentId: Option<int>, now: int,
                               videos: map<string, Video>, ads0: map<string, Ad>, ads: map<string, Ad>,
                               states0: map<int, UserState>, states: map<int, UserState>,
                               m0: map<string, MsgRecord>, m: map<string, MsgRecord>,
                               o: ClickOutcome, polls: nat)
  {
    (o == VideoNotFound <==> videoId !in videos) &&
    (o == VideoNotFound ==> polls == 0 && ads == ads0 && states == states0 && m == m0) &&
    (videoId in videos ==>
       ShowAndWait(uid, videoId, videos[videoId], adError, token, observe, sentId, now,
                   ads0, ads, states0[uid := Cleared], states, m0, m, o, polls))
  }

  class BotHandler {
    const store: JsonStore
    const ads: AdManager
    const messages: MessageManager
    const config: Config

    /** The components share one store. */
    predicate Wired() {
      ads.store == store && messages.store == store
    }

    /** Building the handler builds the ad manager, which seeds an empty store. */
    constructor(store: JsonStore, config: Config, now: int)
      modifies store`ads
      ensures this.store == store && this.config == config && Wired()
      ensures store.ads == Seeded(old(store.ads), now)
      ensures !messages.botSet && !messages.cleanupRunning
    {
      this.store := store;
      this.config := config;
      ads := new AdManager(store, now);
      messages := new MessageManager(store);
    }

    /** `_send_video_to_user`: the video goes out by its file handle (`sentId` is the new
        message's id, None when the send fails) and is then tracked as a video, erasing the
        user's earlier non-video messages. A failed send, or a video without a handle, tracks
        nothing. */
    method SendVideoToUser(uid: int, video: Video, sentId: Option<int>, now: int)
      returns (delivered: bool, attempted: set<string>)
      requires Wired()
      modifies store`messages
      ensures delivered <==> video.fileId.Some? && sentId.Some?
      ensures !delivered ==> attempted == {} && store.messages == old(store.messages)
      ensures delivered ==>
                attempted <= PreviousTargets(old(store.messages), uid) &&
                (!HasNonDict(old(store.messages)) && !PreviousBlocked(old(store.messages), uid) ==>
                   attempted == PreviousTargets(old(store.messages), uid)) &&
                store.messages == EraseKeys(old(store.messages), attempted, now)[
                  MessageKey(uid, sentId.value) := NewRecord(uid, sentId.value, true, now)]
      ensures VideoDelivered(old(store.messages), store.messages, uid, video, sentId, now)
    {
      if video.fileId.None? || sentId.None? {
        return false, {};
      }
      attempted := messages.TrackAndScheduleDeletion(uid, sentId.value, true, true, true, now);
      delivered := true;
    }

    /** `handle_ad_click`: parses the ad id, needs the ad and a link on it and a pending video in
        the user's state; once the video is found it is sent and the user's state is dropped by
        writing back the snapshot without it. */
    method HandleAdClick(uid: int, data: string, sentId: Option<int>, now: int)
      returns (o: AdClickOutcome)
      requires Wired()
      modifies store`messages, store`userStates
      ensures AdClickHandled(uid, data, store.ads, store.videos, old(store.userStates), store.userStates,
                             old(store.messages), store.messages, sentId, now, o)
    {
      var adId := ParseAdClick(data);
      if adId.None? {
        return BadData;
      }
      var ad := store.GetAd(adId.value);
      if ad.None? {
        return AdNotFound;
      }
      if ad.value.url.Missing? {
        return NoUrl;
      }
      var snapshot := store.userStates;
      var pending := if uid in snapshot then snapshot[uid].pendingVideoId else None;
      if pending.None? || pending.value == "" {
        return NoPending;
      }
      var video := store.GetVideo(pending.value);
      if video.None? {
        return VideoMissing;
      }
      var _, _ := SendVideoToUser(uid, video.value, sentId, now);
      if uid in snapshot {
        store.SaveUserStates(snapshot - {uid});
      }
      o := VideoSent;
    }

    /** The watch-button path of `handle_button_click` once the video id is known. */
    method WatchFlow(uid: int, videoId: string, adError: Option<string>, token: string,
                     observe: nat -> bool, sentId: Option<int>, now: int)
      returns (o: ClickOutcome, polls: nat)
      requires Wired()
      modifies store`userStates, store`ads, store`messages
      ensures WatchHandled(uid, videoId, adError, token, observe, sentId, now, store.videos,
                           old(store.ads), store.ads, old(store.userStates), store.userStates,
                           old(store.messages), store.messages, o, polls)
    {
      polls := 0;
      var video := store.GetVideo(videoId);
      if video.None? {
        return VideoNotFound, 0;
      }
      store.ClearAdCompletion(uid);
      o, polls := AdThenPoll(uid, videoId, video.value, adError, token, observe, sentId, now);
    }

    /** The wait that follows a shown ad: once the ad is reported watched the video is sent and
        the user's ad state cleared; on a timeout nothing is stored. */
    method PollThenDeliver(uid: int, video: Video, observe: nat -> bool, sentId: Option<int>, now: int)
      returns (delivered: bool, polls: nat)
      requires Wired()
      modifies store`messages, store`userStates
      ensures delivered <==> CompletedWithin(observe, CHECKS)
      ensures 0 < polls <= CHECKS
      ensures delivered ==>
                observe(polls - 1) && !CompletedWithin(observe, polls - 1) &&
                store.userStates == old(store.userStates)[uid := Cleared] &&
                VideoDelivered(old(store.messages), store.messages, uid, video, sentId, now)
      ensures !delivered ==>
                polls == CHECKS &&
                store.userStates == old(store.userStates) && store.messages == old(store.messages)
    {
      delivered, polls := PollForCompletion(observe);
      if delivered {
        var _, _ := SendVideoToUser(uid, video, sentId, now);
        store.ClearAdCompletion(uid);
      }
    }

    /** The part of the watch path after the flag is cleared: send the ad, poll, deliver. */
    method AdThenPoll(uid: int, videoId: string, video: Video, adError: Option<string>, token: string,
                      observe: nat -> bool, sentId: Option<int>, now: int)
      returns (o: ClickOutcome, polls: nat)
      requires Wired()
      modifies store`userStates, store`ads, store`messages
      ensures ShowAndWait(uid, videoId, video, adError, token, observe, sentId, now,
                          old(store.ads), store.ads, old(store.userStates), store.userStates,
                          old(store.messages), store.messages, o, polls)
    {
      polls := 0;
      var sent, info := ads.SendAdToUser(uid, videoId, token, adError, now);
      if !sent {
        if info == "user_not_started" {
          return NotStarted, 0;
        }
        return AdFailed, 0;
      }
      ghost var states := store.userStates;
      var completed;
      completed, polls := PollThenDeliver(uid, video, observe, sentId, now);
      if completed {
        assert store.userStates == states[uid := Cleared];
        o := Delivered;
      } else {
        o := TimedOut;
      }
    }

    /** `handle_button_click`: empty data is dropped before anything is saved; otherwise the user
        is saved and the data dispatched to the ad-click path, ignored, or the watch path. */
    method HandleButtonClick(uid: int, data: string, profile: UserData, adError: Option<string>,
                             token: string, observe: nat -> bool, sentId: Option<int>, now: int)
      returns (o: ClickOutcome, polls: nat)
      requires Wired()
      modifies store`users, store`userStates, store`ads, store`messages
      ensures data == "" ==>
                o == NoData && polls == 0 &&
                store.users == old(store.users) && store.userStates == old(store.userStates) &&
                store.ads == old(store.ads) && store.messages == old(store.messages)
      ensures data != "" ==> store.users == SavedUser(old(store.users), uid, profile, now)
      ensures data != "" && ParseCallback(data) == Ignore <==> o == Ignored
      ensures data != "" && ParseCallback(data) == AdClick <==> o.AdClicked?
      ensures o == Ignored ==>
                polls == 0 && store.userStates == old(store.userStates) && store.ads == old(store.ads) &&
                store.messages == old(store.messages)
      ensures o.AdClicked? ==>
                polls == 0 && store.ads == old(store.ads) &&
                AdClickHandled(uid, data, store.ads, store.videos, old(store.userStates), store.userStates,
                               old(store.messages), store.messages, sentId, now, o.ad)
      ensures data != "" && ParseCallback(data).Watch? ==>
                WatchHandled(uid, ParseCallback(data).videoId, adError, token, observe, sentId, now,
                             store.videos, old(store.ads), store.ads, old(store.userStates),
                             store.userStates, old(store.messages), store.messages, o, polls)
    {
      polls := 0;
      if data == "" {
        return NoData, 0;
      }
      store.SaveUser(uid, profile, now);
      var cb := ParseCallback(data);
      if cb == AdClick {
        var a := HandleAdClick(uid, data, sentId, now);
        return AdClicked(a), 0;
      }
      if cb == Ignore {
        return Ignored, 0;
      }
      o, polls := WatchFlow(uid, cb.videoId, adError, token, observe, sentId, now);
    }

    /** `broadcast_command`: owner only, needs a message, needs users; then every user lands in
        exactly one of sent, blocked and failed. */
    method BroadcastCommand(uid: int, args: seq<string>, send: int -> Option<string>)
      returns (r: BroadcastResult)
      ensures !IsOwner(config.owner, uid) <==> r == NotOwner
      ensures IsOwner(config.owner, uid) && args == [] <==> r == Usage
      ensures IsOwner(config.owner, uid) && args != [] && store.users == map[] <==> r == NoUsers
      ensures r.Tally? ==>
                r.total == |store.users| &&
                r.sent == |FateKeys(store.users, send, Sent)| &&
                r.blocked == |FateKeys(store.users, send, Blocked)| &&
                r.failed == |FateKeys(store.users, send, Failed)| &&
                r.sent + r.blocked + r.failed == r.total
    {
      if !IsOwner(config.owner, uid) {
        return NotOwner;
      }
      if args == [] {
        return Usage;
      }
      var users := store.users;
      if users == map[] {
        return NoUsers;
      }
      var success, blocked, failed := 0, 0, 0;
      var todo := users.Keys;
      while todo != {}
        invariant todo <= users.Keys
        invariant success == |FateKeys(users, send, Sent) - todo|
        invariant blocked == |FateKeys(users, send, Blocked) - todo|
        invariant failed == |FateKeys(users, send, Failed) - todo|
        decreases |todo|
      {
        var key :| key in todo;
        var fate := BroadcastFate(key, users[key], send);
        TallyStep(FateKeys(users, send, Sent), todo, key);
        TallyStep(FateKeys(users, send, Blocked), todo, key);
        TallyStep(FateKeys(users, send, Failed), todo, key);
        if fate == Sent {
          success := success + 1;
        } else if fate == Blocked {
          blocked := blocked + 1;
        } else {
          failed := failed + 1;
        }
        todo := todo - {key};
      }
      FatesPartition(users, send);
      r := Tally(success, blocked, failed, |users|);
    }
  }
}
