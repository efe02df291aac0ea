# The ad-gated video delivery core

This project is a Dafny model of the core of a Telegram bot that hands out videos only after
the user has opened the advertisement shown to them. The flow it models starts when a user presses
a "watch" button under a channel post. The bot then:

- saves the user's profile;
- picks an active advertisement at random and sends it with a link to the ad page;
- records an ad session for the user: a random token, the ad, the video and the start time;
- waits up to one minute, checking every five seconds, until the ad page reports completion;
- sends the video, which is tracked for deletion 24 hours later.

The web side is a small HTTP application. It has:

- the redirect that starts a session;
- the ad page that substitutes the session's values into an HTML template;
- the completion endpoint, which accepts a completion only for the current session's token and video;
- the webhook that hands updates to the bot's event loop;
- the admin login, bearer-token check and logout.

Two storage backends sit underneath, with the same interface:

- a key-value store of JSON maps;
- a SQL store with upsert semantics.

The model follows the source's form:

- Each store is a `class` whose maps are fields. Each storage method changes only the field it
  names, and states its new value as a function of the old one.
- The managers (`MessageManager`, `AdManager`, `BotHandler`, `WebServer`) are classes holding the
  store. Their loops over the stored maps are `while` loops with invariants.
- Each loop is proved against a specification function. Examples are `PreviousTargets`,
  `SweepTargets`, `PurgeTargets` and `Upserted`.
- Lemmas then state what the source promises about those functions. Examples: idempotence of the
  hourly sweep, token replacement on a new session, agreement and disagreement of the two backends.

Modules, one per file:

- `Common` (common.dfy): `Option`/`Result`, Python-style string helpers (`split`, `join`,
  `replace`, `lower`, `lstrip`, `int()`/`str()` on integers), with their round-trip lemmas.
- `Records` (records.dfy): the stored entities.
  - `UserState`, `UserRecord`, `AdminSession`, `Video`, `Ad` and `MsgRecord`.
  - A field that may be absent, `None` or set is a `Slot`.
  - A stored time that may be missing, of the wrong type or unparseable is a `TimeField`.
- `JsonStorage` (json_storage.dfy): the key-value backend and the ad-session protocol.
- `PostgresStorage` (postgres_storage.dfy): the SQL backend for user states, users and admin
  sessions, related to the key-value backend through `View`.
- `MessageManagement` (message_manager.dfy): message tracking, the immediate deletion of a user's
  earlier messages, the hourly sweep, statistics and the purge of old records.
- `AdRotation` (ad_manager.dfy): default ads, rotation, view counting, statistics, add/update/delete.
- `BotHandling` (bot_handler.dfy): configuration parsing, callback parsing, the watch flow, the
  ad-click flow, completion polling and the broadcast tally.
- `WebApp` (web.dfy): the HTTP endpoints of main.py.

Messages to Telegram, time, tokens and the HTTP request are parameters:

- A send's outcome is the text of the error it raised, as an `Option<string>` (None when it went
  through), or an `Option` holding the new message's id.
- The current time is an `int` number of seconds.
- Random tokens are strings passed in.
- The completion poll is an oracle `observe: nat -> bool`, telling whether check `i` sees the
  completion.

The key-value backend keys user states by `str(user_id)`. The model keys them by the integer
itself, which is equivalent because `str` is injective on integers (`Common.IntRoundTrip`).

## Model

| member | source | states |
|---|---|---|
| JsonStorage.MarkCompleted | storage_json.py:144-162 | succeeds exactly when the user has a state whose token and video id equal the presented ones (the ad id is not compared); a refused call writes nothing; a successful one keeps every key, keeps the session's ad, video, token and start, sets the completion flag and time so the completion check holds, and leaves every other user alone |
| JsonStorage.MarkIgnoresAdId | storage_json.py:150-151 | the outcome and the new state are the same whatever ad id the caller presents |
| JsonStorage.StartThenMark | storage_json.py:134-162 | after a session is started, presenting its token and video completes it (with any ad id), and the completion check then holds for that video |
| JsonStorage.StartSupersedes | storage_json.py:134-154 | once a new session is started, any other token or any other video is refused |
| JsonStorage.ClearedRejects | storage_json.py:169-175 | after the completion is cleared no token validates and the completion check fails for every video |
| JsonStorage.CheckAfterMark | storage_json.py:144-167 | after a completion attempt the completion check holds for the session's video when the attempt succeeded; after a refused attempt it answers as before |
| JsonStorage.StartedNotCompleted | storage_json.py:134-142 | a freshly started session is not completed for any video |
| JsonStorage.MarkReplayable | storage_json.py:144-162 | completion does not consume the token: the same request succeeds again afterwards |
| JsonStorage.SavedUser | storage_json.py:178-196 | the users map gains exactly the user's id text and nothing else changes; a known user's interaction count grows by one, the first interaction stays, an absent name is kept and a present one (even None) overwrites it; a new user starts at one interaction with empty names where none are given |
| JsonStorage.TouchedSession | storage_json.py:218-224 | reports success exactly when the token has a session; only that session's last activity changes, to the given time; nothing changes otherwise |
| JsonStorage.JsonStore.constructor | storage_json.py:14-33 | every stored map starts empty |
| JsonStorage.JsonStore.SaveVideo | storage_json.py:51-54 | the video is stored under its id, others unchanged |
| JsonStorage.JsonStore.GetVideo | storage_json.py:56-58 | returns the stored video exactly when its id is present |
| JsonStorage.JsonStore.DeleteVideo | storage_json.py:63-67 | removes exactly that id |
| JsonStorage.JsonStore.SaveAd | storage_json.py:70-73 | the ad is stored under its id, others unchanged |
| JsonStorage.JsonStore.GetAd | storage_json.py:75-77 | returns the stored ad exactly when its id is present |
| JsonStorage.JsonStore.DeleteAd | storage_json.py:82-86 | removes exactly that id |
| JsonStorage.JsonStore.SaveMessageTracking | storage_json.py:89-92 | the record is stored under its key, others unchanged |
| JsonStorage.JsonStore.DeleteMessageTracking | storage_json.py:105-109 | removes exactly that key |
| JsonStorage.JsonStore.SaveUserState | storage_json.py:112-115 | the state is stored for the user, others unchanged |
| JsonStorage.JsonStore.SaveUserStates | storage_json.py:124-125 | the whole map is replaced by the given one, so users missing from it are dropped |
| JsonStorage.JsonStore.DeleteUserState | storage_json.py:127-131 | removes exactly that user |
| JsonStorage.JsonStore.StartAdSession | storage_json.py:134-142 | the user's state becomes a fresh, uncompleted session with the given ad, video, token and start |
| JsonStorage.JsonStore.MarkAdCompleted | storage_json.py:144-162 | result and new state are those of MarkCompleted |
| JsonStorage.JsonStore.ClearAdCompletion | storage_json.py:169-175 | the user's state becomes the cleared state (no session, not completed) |
| JsonStorage.JsonStore.SaveUser | storage_json.py:178-196 | the users map becomes SavedUser of the old one |
| JsonStorage.JsonStore.CreateAdminSession | storage_json.py:210-216 | the token maps to a session with the given creation and activity times |
| JsonStorage.JsonStore.UpdateAdminSessionActivity | storage_json.py:218-224 | result and new sessions are those of TouchedSession |
| JsonStorage.JsonStore.DeleteAdminSession | storage_json.py:229-233 | removes exactly that token |
| PostgresStorage.Upserted | storage_postgres.py:276-279 | the rows after a batch upsert cover the old rows and the given users; every given user's row is the upserted row; every row not given is untouched |
| PostgresStorage.PgMarkCompleted | storage_postgres.py:300-326 | gives the same answer as the key-value backend on the table's view, and the view afterwards is the key-value result; a refused call writes nothing |
| PostgresStorage.PgSavedUser | storage_postgres.py:345-377 | the insert-or-update gains exactly the user's row; a known user's count grows by one and a None name keeps the stored one; a new user starts at one; other rows are untouched |
| PostgresStorage.BrokerWritesAgree | storage_postgres.py:288-297 | starting and clearing a session leave the table's view equal to the key-value backend's state after the same call |
| PostgresStorage.NoPendingVideo | storage_postgres.py:250-266 | a state read back from the table never carries a pending video id |
| PostgresStorage.SaveUserStatesDiverge | storage_postgres.py:276-279 | a user absent from the batch keeps its row untouched, whereas the key-value backend (JsonStore.SaveUserStates) drops it |
| PostgresStorage.SnapshotDeleteIsNoop | storage_postgres.py:276-279 | writing back a snapshot with one user removed leaves that user's session in the table |
| PostgresStorage.SaveUserNullNameDiverges | storage_postgres.py:355-366 | an update with a None username keeps the stored name in the table, while the key-value backend overwrites it with None |
| PostgresStorage.PgStore.SaveUserState | storage_postgres.py:224-248 | the user's row becomes the row for the given state |
| PostgresStorage.PgStore.GetUserState | storage_postgres.py:250-266 | returns the state read from the row exactly when the user has a row |
| PostgresStorage.PgStore.SaveUserStates | storage_postgres.py:276-279 | the one-by-one upsert loop leaves the table equal to Upserted of the old one |
| PostgresStorage.PgStore.DeleteUserState | storage_postgres.py:281-285 | removes exactly that user's row |
| PostgresStorage.PgStore.StartAdSession | storage_postgres.py:288-297 | the user's row becomes a fresh session row |
| PostgresStorage.PgStore.MarkAdCompleted | storage_postgres.py:300-326 | result and new rows are those of PgMarkCompleted |
| PostgresStorage.PgStore.CheckAdCompleted | storage_postgres.py:328-332 | holds exactly when the user has a row whose completion column is true and whose video is the one asked about |
| PostgresStorage.PgStore.ClearAdCompletion | storage_postgres.py:334-342 | the user's row becomes the cleared row |
| PostgresStorage.PgStore.SaveUser | storage_postgres.py:345-377 | the user rows become PgSavedUser of the old ones |
| PostgresStorage.PgStore.UpdateAdminSessionActivity | storage_postgres.py:459-470 | reports a changed row exactly when the token has a session, touching only its last activity |
| PostgresStorage.PgStore.DeleteAdminSession | storage_postgres.py:486-490 | removes exactly that token |
| MessageManagement.MessageKeyInjective | message_manager.py:54 | two tracking keys are equal only for the same user and message id |
| MessageManagement.KeyParts | message_manager.py:54 | a tracking key splits at the underscore into the user id and message id texts |
| MessageManagement.UserMessages | storage_json.py:101-103 | fails exactly when some stored record is not an object; otherwise returns exactly the user's records, unchanged |
| MessageManagement.UserMessageCount | message_manager.py:198-203 | fails exactly when the user lookup fails; otherwise counts the user's records that are neither deleted nor expired |
| MessageManagement.ErasedLeavesVideos | message_manager.py:61-99 | after the immediate deletion, the user's only live records are the video messages that were live before |
| MessageManagement.EraseIsolated | message_manager.py:69-96 | a record that is not a target of the immediate deletion is left exactly as it was |
| MessageManagement.EraseTwiceFindsNothing | message_manager.py:70 | a second immediate deletion finds nothing left to delete |
| MessageManagement.FreshRecordDue | message_manager.py:44-52 | a newly tracked message becomes due for the sweep exactly 24 hours after it was tracked |
| MessageManagement.SweepKeeps | message_manager.py:140-190 | the sweep keeps every key, leaves records that are not due unchanged, and never undoes a deletion |
| MessageManagement.SweepIdempotent | message_manager.py:145-146 | swept records are marked deleted, so a second sweep at the same time finds nothing and changes nothing |
| MessageManagement.MessageStatistics | message_manager.py:205-231 | all counts are zero for an empty store; total is the number of records, deleted and expired count the flagged records, active is total minus both, unique users are the distinct owners |
| MessageManagement.ActiveCountsLive | message_manager.py:218-221 | when no record is both deleted and expired, the active count is the number of records that are neither |
| MessageManagement.SweepStats | message_manager.py:179-190 | a sweep keeps the total and raises the deleted count by the number of records it deletes |
| MessageManagement.MessageManager.constructor | message_manager.py:16-19 | starts with the scheduler off and no bot |
| MessageManagement.MessageManager.SetBot | message_manager.py:101-104 | afterwards a bot is set |
| MessageManagement.MessageManager.DeleteUserPreviousMessages | message_manager.py:61-99 | attempts only the user's non-deleted, non-video records; attempts all of them unless a record without a message id stops the pass; every attempted record is marked deleted whether or not the send succeeded; nothing else changes |
| MessageManagement.MessageManager.TrackAndScheduleDeletion | message_manager.py:21-59 | without a bot nothing happens; otherwise the new message is tracked under its key with a delete time 24 hours ahead, after, when asked, the immediate deletion attempted some of the user's earlier non-video messages (all of them unless the pass stopped, none when the lookup failed) and marked them deleted |
| MessageManagement.MessageManager.CleanupExpiredMessages | message_manager.py:124-196 | without a bot nothing happens; otherwise exactly the due records are attempted and the store becomes the swept store |
| MessageManagement.MessageManager.StartCleanupScheduler | message_manager.py:106-122 | starts only when not already running; when started the store goes through the hourly sweeps; when not, nothing changes |
| MessageManagement.MessageManager.StopCleanupScheduler | message_manager.py:266-269 | the scheduler flag is off afterwards |
| MessageManagement.MessageManager.CleanupOldTrackingData | message_manager.py:233-264 | removes only old deleted or expired records and changes no other record; when no creation time fails to parse it removes all of them and returns their number; otherwise it returns 0 |
| AdRotation.Seeded | ad_manager.py:26-53 | an empty ad store gets the two default ads, both active; a non-empty store is left as it is |
| AdRotation.Bumped | ad_manager.py:146-155 | an unknown id changes nothing; in a store where every ad sits under its own id, a view increments the ad's views by one and sets its last shown time, leaving the other ads and the key set alone |
| AdRotation.TotalViewsBumped | ad_manager.py:146-155 | one view raises the total views over all ads by exactly one |
| AdRotation.MostPopular | ad_manager.py:216-219 | there is no most popular ad exactly when there are no ads; otherwise it is a stored ad with the most views |
| AdRotation.AdStatistics | ad_manager.py:208-227 | counts all ads and the active ads, sums the views, and reports the most popular ad and its views (none and 0 without ads) |
| AdRotation.EmptyUpdate | ad_manager.py:180-196 | an update with no fields changes nothing but the update time |
| AdRotation.UpdateRekeys | ad_manager.py:187-190 | an update carrying a different id stores the updated ad under that id and leaves the old entry in place |
| AdRotation.SendErrorClassified | ad_manager.py:117-122 | a send error reads as a user who has not started the bot exactly when its text mentions "forbidden" or "bot can't initiate conversation" in any letter case; every other error is a plain failure |
| AdRotation.SendOutcome | ad_manager.py:111-122 | the ad send succeeds exactly when it raised no error |
| AdRotation.AdManager.constructor | ad_manager.py:22-24 | seeds the default ads into an empty store |
| AdRotation.AdManager.InitializeDefaultAds | ad_manager.py:26-53 | the ad store becomes Seeded of the old one |
| AdRotation.AdManager.GetNextAd | ad_manager.py:55-72 | returns nothing and writes nothing exactly when no ad is active; otherwise returns one of the active ads (the random choice may pick any of them), stamped with the current time and written back under its id, with nothing else changed |
| AdRotation.AdManager.UpdateAdStats | ad_manager.py:146-155 | the ad store becomes Bumped of the old one |
| AdRotation.AdManager.SendAdToUser | ad_manager.py:74-135 | succeeds exactly when an ad is active and the send raised no error; the picked ad is always re-saved with its rotation time; on success its view is counted, the user's session is started with its id and that id is returned; an error mentioning "forbidden" or "bot can't initiate conversation" gives "user_not_started", any other "", both without session or count; without an active ad nothing changes |
| AdRotation.AdManager.AddAd | ad_manager.py:157-178 | without a content key nothing is saved and the empty id is returned; otherwise only the generated id is added, holding the given content (None included), zero views, no link, no last shown or update time, and the given type, duration and active flag, which default to text, five seconds and active |
| AdRotation.AdManager.UpdateAd | ad_manager.py:180-196 | succeeds exactly when the ad exists; then the fields the patch carries overwrite the stored ones, the update time is set and the result is saved under its (possibly new) id; otherwise nothing changes |
| AdRotation.AdManager.DeleteAd | ad_manager.py:198-206 | always reports success and removes that id |
| BotHandling.ExtractChannelId | bot_handler.py:60-77 | empty input is rejected as empty; a parsed id is Python's int() of the text; a link or @username without a number is rejected as such; anything else int() accepts is returned |
| BotHandling.ChannelIdRoundTrip | bot_handler.py:60-77 | the decimal text of any integer parses back to that integer |
| BotHandling.DoubleDashRaises | bot_handler.py:66-67 | "--5" passes the digit test after stripping dashes but int() rejects it, so the function raises |
| BotHandling.UsernameRefused | bot_handler.py:71-72 | any text starting with "@" is refused as a link or username |
| BotHandling.OwnerIdFromEnv | bot_handler.py:34-39 | an unset or empty owner id gives no owner; otherwise the owner is int() of the text, or none when that fails |
| BotHandling.OwnerFromEnv | bot_handler.py:115-117 | with the owner's decimal id configured, exactly that user is the owner; with none configured, nobody is |
| BotHandling.Configure | bot_handler.py:21-39 | configuration fails for missing variables exactly when one of the three required ones is empty; otherwise both channel ids are those ExtractChannelId gives, and a bad channel id is reported as such |
| BotHandling.ParseCallback | bot_handler.py:703-711 | "ad_click_" data is an ad click, other "watch_" data is a watch request, anything else is ignored |
| BotHandling.WatchRoundTrip | bot_handler.py:708-711 | "watch_" followed by an id that does not itself contain "watch_" yields that id |
| BotHandling.WatchRemovesEveryOccurrence | bot_handler.py:708-711 | every occurrence of "watch_" is removed, not only the prefix: "watch_<a>watch_<b>" asks for the video "<a><b>" whenever neither part holds "watch_" |
| BotHandling.ParseAdClick | bot_handler.py:808-816 | fails exactly when the data has fewer than three underscores; otherwise the ad id is the third underscore-separated field |
| BotHandling.ParseAdClickFields | bot_handler.py:808-816 | the third of the underscore-separated fields is what is returned |
| BotHandling.AdClickRoundTrip | bot_handler.py:808-816 | "ad_click_<id>_<user>" yields the ad id when the id has no underscore |
| BotHandling.UnderscoredIdMisparse | bot_handler.py:816 | an ad id holding an underscore, such as the seeded "ad_1", is cut at its first underscore when read back from the click data |
| BotHandling.PollForCompletion | bot_handler.py:751-763 | checks at most twelve times; reports completion exactly when one of the twelve checks sees it, and then stops at the first such check |
| BotHandling.FatesPartition | bot_handler.py:250-278 | every user record counts exactly once in the broadcast tally: as sent, blocked or failed |
| BotHandling.BroadcastTargetOfRecord | bot_handler.py:256-262 | a record holding a non-zero user id is sent to that id whatever its key; a record under the key of user n holding no id, a zero id or n itself is sent to n |
| BotHandling.BroadcastFateClassified | bot_handler.py:254-278 | a user counts as sent exactly when there is a target and the send went through; as blocked exactly when the send's error mentions "blocked" or "forbidden" in any letter case; as failed when the key is not an id or the error says anything else |
| BotHandling.BotHandler.constructor | bot_handler.py:21-58 | wires the managers to the store and seeds the default ads into an empty store |
| BotHandling.BotHandler.SendVideoToUser | bot_handler.py:887-919 | delivers exactly when the video has a file and the send returns a message; a delivered video is tracked as a video after the user's earlier non-video messages were marked deleted (all of them unless the pass stopped); otherwise nothing changes |
| BotHandling.BotHandler.HandleAdClick | bot_handler.py:793-885 | each refusal is chosen by the first check that fails, exactly: unparseable data, an unknown ad, an ad without a link, no pending video, a pending video that is not stored; a refusal changes nothing; exactly otherwise the pending video is sent as by SendVideoToUser and the user's state is dropped |
| BotHandling.BotHandler.WatchFlow | bot_handler.py:716-778 | an unknown video is reported exactly when its id is not stored, and changes nothing; otherwise the completion flag is cleared and the ad is shown and waited for as AdThenPoll states |
| BotHandling.BotHandler.PollThenDeliver | bot_handler.py:751-778 | delivers exactly when one of the twelve checks sees the completion, stopping at the first; then the video is sent as by SendVideoToUser and the user's state cleared; a timeout makes all twelve checks and changes nothing |
| BotHandling.BotHandler.AdThenPoll | bot_handler.py:729-778 | not started exactly when an ad is active and the send error mentions "forbidden" or "bot can't initiate conversation"; ad failed exactly when no ad is active or another error was raised; both poll nothing and store no session or message; the picked ad is re-saved with its rotation time and counted only when the send went through; a delivery clears the user's state and sends the video as by SendVideoToUser; a timeout keeps the new session for the picked ad and sends nothing |
| BotHandling.BotHandler.HandleButtonClick | bot_handler.py:687-791 | empty data changes nothing; otherwise the user's profile is saved; ad-click data then takes the ad-click path as HandleAdClick states, leaving the ads alone; "watch_" data takes the watch path as WatchFlow states for the parsed id; anything else is ignored with no further change |
| BotHandling.BotHandler.BroadcastCommand | bot_handler.py:210-293 | a non-owner is refused, no arguments give the usage text, no users give the empty answer; otherwise the tally counts each user once as sent, blocked or failed |
| WebApp.CompleteAdReply | main.py:168-188 | 400 exactly when a parameter is missing; 500 exactly when the user id is not an integer; 200 exactly when the session's token and video match; 403 otherwise; only a 200 writes, and then the completion check holds |
| WebApp.RedirectThenComplete | main.py:168-185 | a completion with the values the redirect stored answers 200 |
| WebApp.StaleTokenRefused | main.py:179-185 | the token of a replaced session is answered 403 |
| WebApp.AdUrl | main.py:134-138 | the stored URL of the ad when it has one, the empty text otherwise |
| WebApp.AdPage | main.py:123-166 | 400 exactly when a parameter is missing; 500 exactly when the template cannot be read; otherwise 200 with every placeholder substituted |
| WebApp.PlainTemplateVerbatim | main.py:151-161 | a template without a brace is served unchanged |
| WebApp.TokenReachesPage | main.py:151-161 | the token placeholder receives exactly the session token |
| WebApp.Authorized | main.py:301-307 | authorised exactly when the header is present, starts with "Bearer " and the text after every "Bearer " removed names a session; then only that session's activity is touched, otherwise nothing changes |
| WebApp.LoginThenAuthorize | main.py:287-291 | a token just issued by login is accepted in a bearer header |
| WebApp.DoubledPrefix | main.py:305 | every occurrence of "Bearer " is removed, so a doubled prefix leaves what the rest of the header alone yields |
| WebApp.LogoutRevokes | main.py:433-443 | after logout the same header is no longer authorised |
| WebApp.WebServer.constructor | main.py:24-35 | starts without loop, thread or bot handler |
| WebApp.WebServer.InitializeBot | main.py:445-480 | always creates the loop and its thread; the handler is set once the thread came up and the configuration parses, and stays set when the webhook setup or the second liveness check then fails; reports success exactly when, in addition, the setup succeeded and the thread is still alive; building the handler seeds the default ads into an empty ad store |
| WebApp.WebServer.Webhook | main.py:190-240 | 503 exactly when the thread has died or the handler or loop is missing; 500 when the body or the hand-off fails; otherwise 200, and only then is the update handed to the loop |
| WebApp.WebServer.CompleteAd | main.py:168-188 | status and new sessions are those of CompleteAdReply |
| WebApp.WebServer.AdRedirect | main.py:72-121 | without a user id the client script is served and nothing changes; otherwise the default ads are seeded and, when one is active, one of the active ads is re-saved with its rotation time whatever follows; without an active ad or with a non-integer user id no session is started; otherwise the redirect carries the picked ad's id and the user's session is started for it and the video |
| WebApp.WebServer.AdminLogin | main.py:266-297 | 400 without a password, 403 when unconfigured or wrong, and 200 exactly when it matches; only a 200 issues the token and stores a session for it |
| WebApp.WebServer.AuthorizeAdmin | main.py:243-247 | result and new sessions are those of Authorized |
| WebApp.WebServer.AdminLogout | main.py:433-443 | always reports success; with a bearer header the named session is deleted, otherwise nothing changes |

## Left out

- Telegram itself is not modelled. Sends, deletions and edits are abstract outcomes passed in as
  parameters. Message ids are `Option<int>`.
- The asyncio event loop, the webhook thread and concurrency are not modelled. Two handlers
  interleaving on the same store are not modelled. `asyncio.sleep` is a step of the poll loop.
- Time is an integer number of seconds. `datetime`, ISO formatting and `os.times().elapsed` are not
  modelled. An unparseable stored time is the `Unparseable` case of `TimeField`.
- Random tokens are parameters. File and SQL I/O are the map fields themselves. Read and write
  errors, which the source logs and swallows, are not modelled.
- An empty stored object is treated as present. The source's `if not user_state` and `if not ad`
  also treat `{}` as missing.
- AdRotation.ViewsOf: a `views` field holding None counts as 0, the same as a missing one. In the
  source, the addition in `_update_ad_stats` raises a TypeError that is caught.
- AdRotation.AdStatistics: a `views` field holding None counts as 0. In the source, `sum` and
  `max` in `get_ad_statistics` raise on it, and nothing there catches the error.
- AdRotation.AdManager.UpdateAd: a patch carries only the id, type, content, link, duration,
  active flag, views, last shown time and creation time, each with a value of its field's type.
  Other keys, and values of other types, that `ad.update` would store are not modelled. An
  `updated_at` in the patch is overwritten right after the overlay.
- `str.isdigit`, `str.lower` and `int()` are modelled for ASCII only. Unicode digits and case
  mappings are left out.
- PostgresStorage.PgStore: the video, ad and message tables, `create_admin_session` and the
  statistics queries of the SQL backend are not modelled. The managers run over the key-value
  backend. Only the user-state, user and admin-session operations are compared.
- MessageManagement.MessageManager.StartCleanupScheduler: the endless loop is followed for a given
  number of hourly rounds.
- Dictionary iteration order and `random.choice` are not modelled. `GetNextAd` may pick any
  active ad, and the ad `MostPopular` picks among equals may differ from the source's.
- BotHandling.BotHandler.PollThenDeliver: the poll oracle reads the completion without going
  through the store. A completion written by the web thread during the wait is therefore the
  oracle's answer, not a store change.
- Messages the bot sends in reply are not tracked by the model outside the watch and ad-click
  flows, for example broadcast replies and command answers.
- Building the webhook URL from environment variables is not modelled.
- Admin routes other than login, the bearer check and logout are not modelled.
- These parts of the bot are not modelled: the `/start`, `/help` and `/stats` commands, the channel
  post and debug handlers, and video processing.
- Exceptions that turn into HTTP 500 are modelled only where named: completion, the ad page,
  the webhook and the redirect.
- AdRotation.TotalViewsBumped: stated only for stores where every ad sits under its own id
  (`WellKeyed`). `_update_ad_stats` rewrites by the ad's own id, which can differ from the key.
