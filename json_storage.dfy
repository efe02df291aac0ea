/** The key-value backend: six JSON collections, each read, changed and written back whole. The
    collections are the fields of `JsonStore`; the ad-session broker and the user and admin-session
    updates are specified by the pure functions above the class. */
module JsonStorage {
  import opened Common
  import opened Records

  // ---------------------------------------------------------------------------------------------
  // Ad-session broker

  /** The record a new ad session writes: it replaces whatever the user had before. */
  function SessionRecord(adId: string, videoId: string, token: string, now: int): UserState {
    UserState(Some(token), Some(now), Some(adId), Some(videoId), Some(false), None, None)
  }

  /** The record a clear writes: no token, no ad, no video, not completed. */
  const Cleared: UserState := UserState(None, None, None, None, Some(false), None, None)

  /** The stored session of `uid` is for `videoId` and was issued `token`. */
  predicate SessionMatches(states: map<int, UserState>, uid: int, videoId: string, token: string) {
    uid in states && states[uid].token == Some(token) && states[uid].videoId == Some(videoId)
  }

  /** `check_ad_completed`: the stored flag is true and the stored video is the one asked about. */
  predicate CheckAdCompleted(states: map<int, UserState>, uid: int, videoId: string) {
    uid in states && states[uid].adCompleted == Some(true) && states[uid].videoId == Some(videoId)
  }

  /** Two records describe the same session: everything but the completion fields agrees. */
  predicate SameSession(a: UserState, b: UserState) {
    a.token == b.token && a.sessionStart == b.sessionStart && a.adId == b.adId &&
    a.videoId == b.videoId && a.pendingVideoId == b.pendingVideoId
  }

  /** `mark_ad_completed`: fails closed, writing nothing, unless the user has a session whose token
      and video match; the presented ad id is never compared. On success only the completion
      fields of that user's record change. */
  function MarkCompleted(states: map<int, UserState>, uid: int, adId: string, videoId: string,
                         token: string, now: int): (r: (bool, map<int, UserState>))
    ensures r.0 <==> SessionMatches(states, uid, videoId, token)
    ensures !r.0 ==> r.1 == states
    ensures r.0 ==> r.1.Keys == states.Keys && CheckAdCompleted(r.1, uid, videoId) &&
                    SameSession(r.1[uid], states[uid]) && r.1[uid].completedAt == Some(now)
    ensures forall u :: u in states && u != uid ==> u in r.1 && r.1[u] == states[u]
  {
    if uid !in states then (false, states)
    else if states[uid].token != Some(token) then (false, states)
    else if states[uid].videoId != Some(videoId) then (false, states)
    else (true, states[uid := states[uid].(adCompleted := Some(true), completedAt := Some(now))])
  }

  // ---------------------------------------------------------------------------------------------
  // Users and admin sessions

  /** `save_user`: a new user starts at one interaction with empty names where none were given; a
      known user gets exactly one more interaction and keeps each name whose key is absent (a name
      sent as None overwrites). Users are keyed by the text of their id. */
  function SavedUser(users: map<string, UserRecord>, uid: int, data: UserData, now: int)
    : (r: map<string, UserRecord>)
    ensures r.Keys == users.Keys + {IntToString(uid)}
    ensures forall k :: k in users && k != IntToString(uid) ==> r[k] == users[k]
    ensures var k := IntToString(uid);
            if k in users then
              r[k].interactionCount == users[k].interactionCount + 1 &&
              r[k].lastInteraction == Some(now) &&
              r[k].firstInteraction == users[k].firstInteraction &&
              r[k].userId == users[k].userId &&
              (data.username.Missing? ==> r[k].username == users[k].username) &&
              (data.firstName.Missing? ==> r[k].firstName == users[k].firstName) &&
              (!data.username.Missing? ==> r[k].username == data.username.Get()) &&
              (!data.firstName.Missing? ==> r[k].firstName == data.firstName.Get())
            else
              r[k].interactionCount == 1 && r[k].userId == Some(uid) &&
              r[k].firstInteraction == Some(now) && r[k].lastInteraction == Some(now) &&
              r[k].username == data.username.GetWithDefault(Some("")) &&
              r[k].firstName == data.firstName.GetWithDefault(Some(""))
  {
    var k := IntToString(uid);
    if k in users then
      var u := users[k];
      users[k := u.(username := data.username.GetWithDefault(u.username),
                    firstName := data.firstName.GetWithDefault(u.firstName),
                    lastInteraction := Some(now),
                    interactionCount := u.interactionCount + 1)]
    else
      users[k := UserRecord(Some(uid), data.username.GetWithDefault(Some("")),
                            data.firstName.GetWithDefault(Some("")), Some(now), Some(now), 1)]
  }

  /** `update_admin_session_activity`: reports whether the token has a session and then moves only
      that session's last activity. */
  function TouchedSession(sessions: map<string, AdminSession>, token: string, t: int)
    : (r: (bool, map<string, AdminSession>))
    ensures r.0 <==> token in sessions
    ensures r.1.Keys == sessions.Keys
    ensures forall k :: k in sessions && k != token ==> r.1[k] == sessions[k]
    ensures r.0 ==> r.1[token].lastActivity == t && r.1[token].createdAt == sessions[token].createdAt
    ensures !r.0 ==> r.1 == sessions
  {
    if token in sessions then (true, sessions[token := sessions[token].(lastActivity := t)])
    else (false, sessions)
  }

  // ---------------------------------------------------------------------------------------------
  // Broker properties

  /** The presented ad id has no influence on completion. */
  lemma MarkIgnoresAdId(states: map<int, UserState>, uid: int, a1: string, a2: string,
                        videoId: string, token: string, now: int)
    ensures MarkCompleted(states, uid, a1, videoId, token, now) ==
            MarkCompleted(states, uid, a2, videoId, token, now)
  {
  }

  /** The token and video of a freshly started session complete it. */
  lemma StartThenMark(states: map<int, UserState>, uid: int, adId: string, otherAd: string,
                      videoId: string, token: string, start: int, now: int)
    ensures var r := MarkCompleted(states[uid := SessionRecord(adId, videoId, token, start)],
                                   uid, otherAd, videoId, token, now);
            r.0 && CheckAdCompleted(r.1, uid, videoId)
  {
  }

  /** Starting a new session invalidates every token issued before it, and a session only
      completes for its own video. */
  lemma StartSupersedes(states: map<int, UserState>, uid: int, adId: string, videoId: string,
                        token: string, start: int, presented: string, presentedVideo: string,
                        someAd: string, now: int)
    requires presented != token || presentedVideo != videoId
    ensures !MarkCompleted(states[uid := SessionRecord(adId, videoId, token, start)],
                           uid, someAd, presentedVideo, presented, now).0
  {
  }

  /** The completion check after a completion attempt: it holds for the session's video when the
      attempt succeeded, and otherwise answers as it did before. */
  lemma CheckAfterMark(states: map<int, UserState>, uid: int, adId: string, videoId: string,
                       token: string, now: int, asked: string)
    ensures var r := MarkCompleted(states, uid, adId, videoId, token, now);
            CheckAdCompleted(r.1, uid, asked) <==>
              (r.0 && asked == videoId) || (!r.0 && CheckAdCompleted(states, uid, asked))
  {
  }

  /** After a clear no token validates, and nothing reads as completed. */
  lemma ClearedRejects(states: map<int, UserState>, uid: int, adId: string, videoId: string,
                       token: string, now: int)
    ensures !MarkCompleted(states[uid := Cleared], uid, adId, videoId, token, now).0
    ensures !CheckAdCompleted(states[uid := Cleared], uid, videoId)
  {
  }

  /** A started session is not yet completed, whatever was stored before it. */
  lemma StartedNotCompleted(states: map<int, UserState>, uid: int, adId: string, videoId: string,
                            token: string, start: int, asked: string)
    ensures !CheckAdCompleted(states[uid := SessionRecord(adId, videoId, token, start)], uid, asked)
  {
  }

  /** Completion does not consume the token: until the session is replaced or cleared, the same
      request completes again. */
  lemma MarkReplayable(states: map<int, UserState>, uid: int, adId: string, videoId: string,
                       token: string, t1: int, t2: int)
    requires MarkCompleted(states, uid, adId, videoId, token, t1).0
    ensures MarkCompleted(MarkCompleted(states, uid, adId, videoId, token, t1).1,
                          uid, adId, videoId, token, t2).0
  {
  }

  // ---------------------------------------------------------------------------------------------
  // The store

  class JsonStore {
    var videos: map<string, Video>
    var ads: map<string, Ad>
    var messages: map<string, MsgRecord>
    var userStates: map<int, UserState>
    var users: map<string, UserRecord>
    var adminSessions: map<string, AdminSession>

    /** A fresh data directory: every collection starts empty. */
    constructor()
      ensures videos == map[] && ads == map[] && messages == map[]
      ensures userStates == map[] && users == map[] && adminSessions == map[]
    {
      videos := map[];
      ads := map[];
      messages := map[];
      userStates := map[];
      users := map[];
      adminSessions := map[];
    }

    // Videos and ads

    method SaveVideo(v: Video)
      modifies this`videos
      ensures videos == old(videos)[v.id := v]
    {
      videos := videos[v.id := v];
    }

    function GetVideo(id: string): (r: Option<Video>)
      reads this`videos
      ensures r.Some? <==> id in videos
      ensures r.Some? ==> r.value == videos[id]
    {
      if id in videos then Some(videos[id]) else None
    }

    method DeleteVideo(id: string)
      modifies this`videos
      ensures videos == old(videos) - {id}
    {
      if id in videos {
        videos := videos - {id};
      }
    }

    method SaveAd(a: Ad)
      modifies this`ads
      ensures ads == old(ads)[a.id := a]
    {
      ads := ads[a.id := a];
    }

    function GetAd(id: string): (r: Option<Ad>)
      reads this`ads
      ensures r.Some? <==> id in ads
      ensures r.Some? ==> r.value == ads[id]
    {
      if id in ads then Some(ads[id]) else None
    }

    method DeleteAd(id: string)
      modifies this`ads
      ensures ads == old(ads) - {id}
    {
      if id in ads {
        ads := ads - {id};
      }
    }

    // Message tracking

    method SaveMessageTracking(key: string, rec: MsgRecord)
      modifies this`messages
      ensures messages == old(messages)[key := rec]
    {
      messages := messages[key := rec];
    }

    method DeleteMessageTracking(key: string)
      modifies this`messages
      ensures messages == old(messages) - {key}
    {
      if key in messages {
        messages := messages - {key};
      }
    }

    // User states

    method SaveUserState(uid: int, s: UserState)
      modifies this`userStates
      ensures userStates == old(userStates)[uid := s]
    {
      userStates := userStates[uid := s];
    }

    /** `save_user_states`: the given map becomes the whole collection. */
    method SaveUserStates(all: map<int, UserState>)
      modifies this`userStates
      ensures userStates == all
    {
      userStates := all;
    }

    method DeleteUserState(uid: int)
      modifies this`userStates
      ensures userStates == old(userStates) - {uid}
    {
      if uid in userStates {
        userStates := userStates - {uid};
      }
    }

    method StartAdSession(uid: int, adId: string, videoId: string, token: string, now: int)
      modifies this`userStates
      ensures userStates == old(userStates)[uid := SessionRecord(adId, videoId, token, now)]
    {
      SaveUserState(uid, SessionRecord(adId, videoId, token, now));
    }

    method MarkAdCompleted(uid: int, adId: string, videoId: string, token: string, now: int)
      returns (ok: bool)
      modifies this`userStates
      ensures (ok, userStates) == MarkCompleted(old(userStates), uid, adId, videoId, token, now)
    {
      if uid !in userStates {
        return false;
      }
      var s := userStates[uid];
      if s.token != Some(token) {
        return false;
      }
      if s.videoId != Some(videoId) {
        return false;
      }
      SaveUserState(uid, s.(adCompleted := Some(true), completedAt := Some(now)));
      ok := true;
    }

    method ClearAdCompletion(uid: int)
      modifies this`userStates
      ensures userStates == old(userStates)[uid := Cleared]
    {
      SaveUserState(uid, Cleared);
    }

    // Users and admin sessions

    method SaveUser(uid: int, data: UserData, now: int)
      modifies this`users
      ensures users == SavedUser(old(users), uid, data, now)
    {
      var k := IntToString(uid);
      if k in users {
        var u := users[k];
        users := users[k := u.(username := data.username.GetWithDefault(u.username),
                               firstName := data.firstName.GetWithDefault(u.firstName),
                               lastInteraction := Some(now),
                               interactionCount := u.interactionCount + 1)];
      } else {
        users := users[k := UserRecord(Some(uid), data.username.GetWithDefault(Some("")),
                                       data.firstName.GetWithDefault(Some("")), Some(now), Some(now), 1)];
      }
    }

    method CreateAdminSession(token: string, createdAt: int, lastActivity: int)
      modifies this`adminSessions
      ensures adminSessions == old(adminSessions)[token := AdminSession(createdAt, lastActivity)]
    {
      adminSessions := adminSessions[token := AdminSession(createdAt, lastActivity)];
    }

    method UpdateAdminSessionActivity(token: string, t: int) returns (found: bool)
      modifies this`adminSessions
      ensures (found, adminSessions) == TouchedSession(old(adminSessions), token, t)
    {
      found := token in adminSessions;
      if found {
        adminSessions := adminSessions[token := adminSessions[token].(lastActivity := t)];
      }
    }

    method DeleteAdminSession(token: string)
      modifies this`adminSessions
      ensures adminSessions == old(adminSessions) - {token}
    {
      if token in adminSessions {
        adminSessions := adminSessions - {token};
      }
    }
  }
}
