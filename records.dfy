/** The records the bot keeps in its stores, as the values the code reads out of them. A Python
    dict field read with `.get(key)` is an `Option`; a field whose presence matters (`key in d`,
    `d.get(key, default)`) is a `Slot`. Times are integer seconds. */
module Records {
  import opened Common

  /** Tracked messages are deleted 24 hours after they are sent. */
  const RETENTION: int := 24 * 3600
  /** One day, the unit of the purge cutoff. */
  const DAY: int := 24 * 3600
  /** The cleanup scheduler sleeps an hour between sweeps. */
  const SWEEP_INTERVAL: int := 3600

  /** One user's ad-session record. `pendingVideoId` is read by the ad-click path; no
      operation of the bot writes it. */
  datatype UserState = UserState(
    token: Option<string>,
    sessionStart: Option<int>,
    adId: Option<string>,
    videoId: Option<string>,
    adCompleted: Option<bool>,
    completedAt: Option<int>,
    pendingVideoId: Option<string>)

  /** The profile fields a Telegram update carries; a user without a username sends `Null`. */
  datatype UserData = UserData(username: Slot<string>, firstName: Slot<string>)

  datatype UserRecord = UserRecord(
    userId: Option<int>,
    username: Option<string>,
    firstName: Option<string>,
    firstInteraction: Option<int>,
    lastInteraction: Option<int>,
    interactionCount: int)

  datatype AdminSession = AdminSession(createdAt: int, lastActivity: int)

  /** A stored video; `fileId` is the Telegram file handle the bot re-sends. */
  datatype Video = Video(id: string, fileId: Option<string>)

  /** A stored ad. `active` defaults to true when the key is absent and reads false when it holds
      None; a missing `views` counts as 0; `content` may hold None. */
  datatype Ad = Ad(
    id: string,
    kind: Option<string>,
    content: Option<string>,
    url: Slot<string>,
    duration: Option<int>,
    active: Slot<bool>,
    views: Option<int>,
    lastShown: Option<int>,
    createdAt: Option<int>,
    updatedAt: Option<int>)

  /** A timestamp field of a tracked message: absent or falsy, not a string, a string that ISO
      parsing rejects, or a parsed time. */
  datatype TimeField = NoTime | WrongType | Unparseable | At(t: int)

  /** A tracked message record; `NotDict` is a stored value that is not a JSON object.
      `messageId` is a `Slot` because the code indexes it with `[...]` and a missing key raises. */
  datatype MsgRecord =
    | NotDict
    | Msg(
        userId: Option<int>,
        chatId: Option<int>,
        messageId: Slot<int>,
        createdAt: TimeField,
        deleteAt: TimeField,
        deleted: bool,
        deletedAt: Option<int>,
        isVideo: bool,
        expired: bool)

  /** How a Telegram send ended. `Forbidden` covers every error whose lower-cased text contains
      "forbidden" or "bot can't initiate conversation". */
  datatype Delivery = Success | Forbidden | OtherFailure
}
