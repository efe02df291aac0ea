/** The SQL backend for the same broker, users and admin sessions. A user's state is a table row
    written by upsert: every write stores `.get` of the six session columns (a missing completion
    flag as false) and stamps `updated_at`. */
module PostgresStorage {
  import opened Common
  import opened Records
  import JsonStorage

  /** A row of `user_states`. There is no column for a pending video. */
  datatype StateRow = StateRow(
    token: Option<string>,
    sessionStart: Option<int>,
    adId: Option<string>,
    videoId: Option<string>,
    adCompleted: bool,
    completedAt: Option<int>,
    updatedAt: int)

  /** A row of `users`. */
  datatype UserRow = UserRow(
    username: Option<string>,
    firstName: Option<string>,
    firstInteraction: int,
    lastInteraction: int,
    interactionCount: int)

  /** The columns an upsert of `s` writes. */
  function ToRow(s: UserState, now: int): StateRow {
    StateRow(s.token, s.sessionStart, s.adId, s.videoId, s.adCompleted.GetOr(false), s.completedAt, now)
  }

  /** A row as `get_user_state` returns it, read through `.get`. */
  function FromRow(r: StateRow): UserState {
    UserState(r.token, r.sessionStart, r.adId, r.videoId, Some(r.adCompleted), r.completedAt, None)
  }

  /** The table as the broker sees it. */
  function View(rows: map<int, StateRow>): map<int, UserState> {
    map u | u in rows :: FromRow(rows[u])
  }

  /** `save_user_states`: every given entry is upserted; rows that are not given stay as they were. */
  function Upserted(rows: map<int, StateRow>, given: map<int, UserState>, now: int)
    : (r: map<int, StateRow>)
    ensures r.Keys == rows.Keys + given.Keys
    ensures forall u :: u in given ==> r[u] == ToRow(given[u], now)
    ensures forall u :: u in rows && u !in given ==> r[u] == rows[u]
  {
    map u | u in rows.Keys + given.Keys :: if u in given then ToRow(given[u], now) else rows[u]
  }

  /** `rows` is `rows0` with every given entry except those under `todo` upserted. */
  predicate UpsertedExcept(rows0: map<int, StateRow>, rows: map<int, StateRow>, given: map<int, UserState>,
                           todo: set<int>, now: int) {
    rows.Keys == rows0.Keys + (given.Keys - todo) &&
    (forall u :: u in given && u !in todo ==> rows[u] == ToRow(given[u], now)) &&
    (forall u :: u in rows0 && (u !in given || u in todo) ==> rows[u] == rows0[u])
  }

  lemma UpsertStart(rows0: map<int, StateRow>, given: map<int, UserState>, now: int)
    ensures UpsertedExcept(rows0, rows0, given, given.Keys, now)
  {
  }

  /** One more upsert moves one key out of the pending set. */
  lemma UpsertStep(rows0: map<int, StateRow>, rows: map<int, StateRow>, given: map<int, UserState>,
                   todo: set<int>, u: int, now: int)
    requires u in todo && todo <= given.Keys && UpsertedExcept(rows0, rows, given, todo, now)
    ensures UpsertedExcept(rows0, rows[u := ToRow(given[u], now)], given, todo - {u}, now)
  {
  }

  lemma UpsertDone(rows0: map<int, StateRow>, rows: map<int, StateRow>, given: map<int, UserState>, now: int)
    requires UpsertedExcept(rows0, rows, given, {}, now)
    ensures rows == Upserted(rows0, given, now)
  {
    var r := Upserted(rows0, given, now);
    assert rows.Keys == r.Keys;
    forall u | u in rows ensures rows[u] == r[u] {
      if u in given {
        assert rows[u] == ToRow(given[u], now);
      } else {
        assert rows[u] == rows0[u];
      }
    }
  }

  /** `mark_ad_completed` over rows: reads the row, checks token and video, and upserts the merged
      record; the result agrees with the key-value backend on the broker's view of the table. */
  function PgMarkCompleted(rows: map<int, StateRow>, uid: int, adId: string, videoId: string,
                           token: string, now: int): (r: (bool, map<int, StateRow>))
    ensures var j := JsonStorage.MarkCompleted(View(rows), uid, adId, videoId, token, now);
            r.0 == j.0 && View(r.1) == j.1
    ensures !r.0 ==> r.1 == rows
  {
    if uid !in rows then (false, rows)
    else
      var s := FromRow(rows[uid]);
      if s.token != Some(token) || s.videoId != Some(videoId) then (false, rows)
      else
        var merged := s.(adCompleted := Some(true), completedAt := Some(now));
        assert View(rows[uid := ToRow(merged, now)]) == View(rows)[uid := merged];
        (true, rows[uid := ToRow(merged, now)])
  }

  /** `save_user` with COALESCE: a known user keeps each name for which no value (absent or None)
      is given and gains exactly one interaction; a new user starts at one. */
  function PgSavedUser(rows: map<int, UserRow>, uid: int, data: UserData, now: int)
    : (r: map<int, UserRow>)
    ensures r.Keys == rows.Keys + {uid}
    ensures forall u :: u in rows && u != uid ==> r[u] == rows[u]
    ensures uid in rows ==>
              r[uid].interactionCount == rows[uid].interactionCount + 1 &&
              r[uid].lastInteraction == now &&
              r[uid].firstInteraction == rows[uid].firstInteraction &&
              r[uid].username == (if data.username.Val? then Some(data.username.value) else rows[uid].username) &&
              r[uid].firstName == (if data.firstName.Val? then Some(data.firstName.value) else rows[uid].firstName)
    ensures uid !in rows ==>
              r[uid] == UserRow(data.username.GetWithDefault(Some("")), data.firstName.GetWithDefault(Some("")),
                                now, now, 1)
  {
    if uid in rows then
      var u := rows[uid];
      var name := data.username.Get();
      var first := data.firstName.Get();
      rows[uid := u.(username := if name.Some? then name else u.username,
                     firstName := if first.Some? then first else u.firstName,
                     lastInteraction := now,
                     interactionCount := u.interactionCount + 1)]
    else
      rows[uid := UserRow(data.username.GetWithDefault(Some("")), data.firstName.GetWithDefault(Some("")),
                          now, now, 1)]
  }

  // ---------------------------------------------------------------------------------------------
  // Agreement and divergence with the key-value backend

  /** Starting and clearing a session leave the table in the state the key-value backend writes. */
  lemma BrokerWritesAgree(rows: map<int, StateRow>, uid: int, adId: string, videoId: string,
                          token: string, now: int)
    ensures View(rows[uid := ToRow(JsonStorage.SessionRecord(adId, videoId, token, now), now)]) ==
            View(rows)[uid := JsonStorage.SessionRecord(adId, videoId, token, now)]
    ensures View(rows[uid := ToRow(JsonStorage.Cleared, now)]) == View(rows)[uid := JsonStorage.Cleared]
  {
    var s := JsonStorage.SessionRecord(adId, videoId, token, now);
    assert FromRow(ToRow(s, now)) == s;
    assert FromRow(ToRow(JsonStorage.Cleared, now)) == JsonStorage.Cleared;
  }

  /** A state read from the table never names a pending video, so the engagement path of the bot
      cannot find one on this backend either. */
  lemma NoPendingVideo(rows: map<int, StateRow>, uid: int)
    requires uid in rows
    ensures uid in View(rows) && View(rows)[uid].pendingVideoId == None
  {
  }

  /** `save_user_states` without an entry for a user keeps that user's row untouched on the SQL
      backend, whereas the key-value backend replaces the whole map and so drops the user. */
  lemma SaveUserStatesDiverge(rows: map<int, StateRow>, given: map<int, UserState>, uid: int, now: int)
    requires uid in rows && uid !in given
    ensures uid in Upserted(rows, given, now) && Upserted(rows, given, now)[uid] == rows[uid]
  {
  }

  /** Writing back a snapshot with one user deleted, as the engagement path does, deletes nothing
      on the SQL backend: the user's session is still there. */
  lemma SnapshotDeleteIsNoop(rows: map<int, StateRow>, uid: int, now: int)
    requires uid in rows
    ensures var r := Upserted(rows, View(rows) - {uid}, now);
            uid in r && View(r)[uid] == View(rows)[uid]
  {
    var r := Upserted(rows, View(rows) - {uid}, now);
    assert uid !in View(rows) - {uid};
    assert r[uid] == rows[uid];
  }

  /** A user whose update carries no username (None): the key-value backend overwrites the stored
      name with None, the SQL backend keeps it. */
  lemma SaveUserNullNameDiverges(rows: map<int, UserRow>, users: map<string, UserRecord>,
                                 uid: int, name: string, first: Slot<string>, now: int)
    requires uid in rows && rows[uid].username == Some(name)
    requires IntToString(uid) in users && users[IntToString(uid)].username == Some(name)
    ensures PgSavedUser(rows, uid, UserData(Null, first), now)[uid].username == Some(name)
    ensures JsonStorage.SavedUser(users, uid, UserData(Null, first), now)[IntToString(uid)].username == None
  {
  }

  // ---------------------------------------------------------------------------------------------
  // The store

  class PgStore {
    var stateRows: map<int, StateRow>
    var userRows: map<int, UserRow>
    var sessionRows: map<string, AdminSession>

    method SaveUserState(uid: int, s: UserState, now: int)
      modifies this`stateRows
      ensures stateRows == old(stateRows)[uid := ToRow(s, now)]
    {
      stateRows := stateRows[uid := ToRow(s, now)];
    }

    function GetUserState(uid: int): (r: Option<UserState>)
      reads this`stateRows
      ensures r.Some? <==> uid in stateRows
      ensures r.Some? ==> r.value == View(stateRows)[uid]
    {
      if uid in stateRows then Some(FromRow(stateRows[uid])) else None
    }

    /** One upsert per given entry, in whatever order the map yields them. */
    method SaveUserStates(given: map<int, UserState>, now: int)
      modifies this`stateRows
      ensures stateRows == Upserted(old(stateRows), given, now)
    {
      var todo := given.Keys;
      UpsertStart(stateRows, given, now);
      while todo != {}
        invariant todo <= given.Keys
        invariant UpsertedExcept(old(stateRows), stateRows, given, todo, now)
        decreases |todo|
      {
        var u := PickFrom(todo);
        UpsertStep(old(stateRows), stateRows, given, todo, u, now);
        SaveUserState(u, given[u], now);
        todo := todo - {u};
      }
      UpsertDone(old(stateRows), stateRows, given, now);
    }

    method DeleteUserState(uid: int)
      modifies this`stateRows
      ensures stateRows == old(stateRows) - {uid}
    {
      stateRows := stateRows - {uid};
    }

    method StartAdSession(uid: int, adId: string, videoId: string, token: string, now: int)
      modifies this`stateRows
      ensures stateRows == old(stateRows)[uid := ToRow(JsonStorage.SessionRecord(adId, videoId, token, now), now)]
    {
      SaveUserState(uid, JsonStorage.SessionRecord(adId, videoId, token, now), now);
    }

    method MarkAdCompleted(uid: int, adId: string, videoId: string, token: string, now: int)
      returns (ok: bool)
      modifies this`stateRows
      ensures (ok, stateRows) == PgMarkCompleted(old(stateRows), uid, adId, videoId, token, now)
    {
      var found := GetUserState(uid);
      if found.None? {
        return false;
      }
      var s := found.value;
      if s.token != Some(token) {
        return false;
      }
      if s.videoId != Some(videoId) {
        return false;
      }
      SaveUserState(uid, s.(adCompleted := Some(true), completedAt := Some(now)), now);
      ok := true;
    }

    /** `check_ad_completed` reads the row through `get_user_state`: the row exists, its
        completion column is true and its video is the one asked about. */
    predicate CheckAdCompleted(uid: int, videoId: string)
      reads this`stateRows
      ensures CheckAdCompleted(uid, videoId) <==>
                uid in stateRows && stateRows[uid].adCompleted && stateRows[uid].videoId == Some(videoId)
    {
      JsonStorage.CheckAdCompleted(View(stateRows), uid, videoId)
    }

    method ClearAdCompletion(uid: int, now: int)
      modifies this`stateRows
      ensures stateRows == old(stateRows)[uid := ToRow(JsonStorage.Cleared, now)]
    {
      SaveUserState(uid, JsonStorage.Cleared, now);
    }

    method SaveUser(uid: int, data: UserData, now: int)
      modifies this`userRows
      ensures userRows == PgSavedUser(old(userRows), uid, data, now)
    {
      if uid in userRows {
        var u := userRows[uid];
        var name := data.username.Get();
        var first := data.firstName.Get();
        userRows := userRows[uid := u.(username := if name.Some? then name else u.username,
                                       firstName := if first.Some? then first else u.firstName,
                                       lastInteraction := now,
                                       interactionCount := u.interactionCount + 1)];
      } else {
        userRows := userRows[uid := UserRow(data.username.GetWithDefault(Some("")),
                                            data.firstName.GetWithDefault(Some("")), now, now, 1)];
      }
    }

    /** The UPDATE reports a row count; the call succeeds when it touched a row. */
    method UpdateAdminSessionActivity(token: string, t: int) returns (found: bool)
      modifies this`sessionRows
      ensures (found, sessionRows) == JsonStorage.TouchedSession(old(sessionRows), token, t)
    {
      var rowcount := if token in sessionRows then 1 else 0;
      if token in sessionRows {
        sessionRows := sessionRows[token := sessionRows[token].(lastActivity := t)];
      }
      found := rowcount > 0;
    }

    method DeleteAdminSession(token: string)
      modifies this`sessionRows
      ensures sessionRows == old(sessionRows) - {token}
    {
      sessionRows := sessionRows - {token};
    }
  }
}
