/** The message lifecycle: every message the bot sends is tracked under "<user>_<message>" and
    scheduled for deletion a day later; sending a new message first erases the user's earlier
    non-video messages; an hourly sweep deletes what is due; a purge drops old finished records. */
module MessageManagement {
  import opened Common
  import opened Records
  import opened JsonStorage

  // ---------------------------------------------------------------------------------------------
  // Keys and fresh records

  /** The tracking key of a message. */
  function MessageKey(uid: int, mid: int): string {
    IntToString(uid) + "_" + IntToString(mid)
  }

  /** Distinct messages never share a tracking key. */
  lemma MessageKeyInjective(u1: int, m1: int, u2: int, m2: int)
    requires MessageKey(u1, m1) == MessageKey(u2, m2)
    ensures u1 == u2 && m1 == m2
  {
    KeyParts(u1, m1);
    KeyParts(u2, m2);
    IntRoundTrip(u1);
    IntRoundTrip(u2);
    IntRoundTrip(m1);
    IntRoundTrip(m2);
  }

  /** A tracking key splits at its one underscore into the two ids. */
  lemma KeyParts(uid: int, mid: int)
    ensures Split(MessageKey(uid, mid), '_') == [IntToString(uid), IntToString(mid)]
  {
    var a, b := IntToString(uid), IntToString(mid);
    IntToStringNoUnderscore(uid);
    IntToStringNoUnderscore(mid);
    assert MessageKey(uid, mid) == a + ['_'] + b;
    SplitAround(a, b, '_');
    SplitNoSeparator(b, '_');
  }

  /** The record tracking a message sent at `now`: addressed to the user's own chat, not deleted,
      due a day later. */
  function NewRecord(uid: int, mid: int, isVideo: bool, now: int): MsgRecord {
    Msg(Some(uid), Some(uid), Val(mid), At(now), At(now + RETENTION), false, None, isVideo, false)
  }

  // ---------------------------------------------------------------------------------------------
  // Marking records deleted

  /** Deletion bookkeeping: the record is flagged deleted at `now`, whatever the transport said. */
  function MarkDeleted(r: MsgRecord, now: int): MsgRecord {
    if r.Msg? then r.(deleted := true, deletedAt := Some(now)) else r
  }

  /** The store after marking the records under `ks` deleted. */
  function EraseKeys(msgs: map<string, MsgRecord>, ks: set<string>, now: int)
    : (r: map<string, MsgRecord>)
    ensures r.Keys == msgs.Keys
    ensures forall k :: k in msgs && k in ks ==> r[k] == MarkDeleted(msgs[k], now)
    ensures forall k :: k in msgs && k !in ks ==> r[k] == msgs[k]
  {
    map k | k in msgs :: if k in ks then MarkDeleted(msgs[k], now) else msgs[k]
  }

  predicate OwnedBy(r: MsgRecord, uid: int) {
    r.Msg? && r.userId == Some(uid)
  }

  /** A stored value that is not an object makes every per-user query raise. */
  predicate HasNonDict(msgs: map<string, MsgRecord>) {
    exists k :: k in msgs && msgs[k].NotDict?
  }

  /** `get_user_messages`: the records whose user is `uid`, or None when the query raises. */
  function UserMessages(msgs: map<string, MsgRecord>, uid: int): (r: Option<map<string, MsgRecord>>)
    ensures r.Some? <==> !HasNonDict(msgs)
    ensures r.Some? ==> forall k :: k in r.value <==> k in msgs && OwnedBy(msgs[k], uid)
    ensures r.Some? ==> forall k :: k in r.value ==> r.value[k] == msgs[k]
  {
    if HasNonDict(msgs) then None else Some(map k | k in msgs && OwnedBy(msgs[k], uid) :: msgs[k])
  }

  // ---------------------------------------------------------------------------------------------
  // Erasing a user's previous messages

  /** What the eager erase does with one of the user's records. A record without a message id stops
      the whole pass, because the code indexes that key while logging or deleting. */
  datatype PrevStep = Keep | Abort | Erase

  function PrevAction(r: MsgRecord): PrevStep
    requires r.Msg?
  {
    if r.deleted then Keep
    else if r.messageId.Missing? then Abort
    else if r.isVideo then Keep
    else Erase
  }

  /** The user's live non-video records: those the eager erase marks deleted. */
  function PreviousTargets(msgs: map<string, MsgRecord>, uid: int): (ks: set<string>)
    ensures forall k :: k in ks <==> k in msgs && OwnedBy(msgs[k], uid) && PrevAction(msgs[k]) == Erase
  {
    set k | k in msgs && OwnedBy(msgs[k], uid) && PrevAction(msgs[k]) == Erase
  }

  /** Some record of the user lacks a message id, so the pass may stop before reaching all targets. */
  predicate PreviousBlocked(msgs: map<string, MsgRecord>, uid: int) {
    exists k :: k in msgs && OwnedBy(msgs[k], uid) && PrevAction(msgs[k]) == Abort
  }

  /** The user's records that are neither deleted nor expired. */
  function LiveOf(msgs: map<string, MsgRecord>, uid: int): set<string> {
    set k | k in msgs && OwnedBy(msgs[k], uid) && !msgs[k].deleted && !msgs[k].expired
  }

  function LiveVideosOf(msgs: map<string, MsgRecord>, uid: int): set<string> {
    set k | k in msgs && OwnedBy(msgs[k], uid) && !msgs[k].deleted && !msgs[k].expired && msgs[k].isVideo
  }

  /** `get_user_message_count`: the user's live records, or None when the query raises. */
  function UserMessageCount(msgs: map<string, MsgRecord>, uid: int): (r: Option<nat>)
    ensures r.Some? <==> !HasNonDict(msgs)
    ensures r.Some? ==> r.value == |LiveOf(msgs, uid)|
  {
    if HasNonDict(msgs) then None else Some(|LiveOf(msgs, uid)|)
  }

  /** After a complete eager erase the only live messages a user has left are videos. */
  lemma {:induction false} ErasedLeavesVideos(msgs: map<string, MsgRecord>, uid: int, now: int)
    requires !PreviousBlocked(msgs, uid)
    ensures LiveOf(EraseKeys(msgs, PreviousTargets(msgs, uid), now), uid) == LiveVideosOf(msgs, uid)
  {
    var after := EraseKeys(msgs, PreviousTargets(msgs, uid), now);
    forall k | k in LiveOf(after, uid) ensures k in LiveVideosOf(msgs, uid) {
      assert k !in PreviousTargets(msgs, uid);
      assert after[k] == msgs[k];
      assert PrevAction(msgs[k]) != Abort;
    }
    forall k | k in LiveVideosOf(msgs, uid) ensures k in LiveOf(after, uid) {
      assert k !in PreviousTargets(msgs, uid);
    }
  }

  /** Erasing the user's targets leaves every other user's records, and the user's videos and
      already deleted records, as they were. */
  lemma EraseIsolated(msgs: map<string, MsgRecord>, uid: int, now: int, k: string)
    requires k in msgs && k !in PreviousTargets(msgs, uid)
    ensures EraseKeys(msgs, PreviousTargets(msgs, uid), now)[k] == msgs[k]
  {
  }

  /** A second pass finds nothing left to erase. */
  lemma {:induction false} EraseTwiceFindsNothing(msgs: map<string, MsgRecord>, uid: int, now: int)
    ensures PreviousTargets(EraseKeys(msgs, PreviousTargets(msgs, uid), now), uid) == {}
  {
    var after := EraseKeys(msgs, PreviousTargets(msgs, uid), now);
    forall k | k in after && OwnedBy(after[k], uid) ensures PrevAction(after[k]) != Erase {
      if k in PreviousTargets(msgs, uid) {
        assert after[k].deleted;
      }
    }
  }

  /** The targets among the keys of the user's snapshot `seen` already examined (all but `todo`). */
  function ErasedSoFar(msgs: map<string, MsgRecord>, uid: int, seen: set<string>, todo: set<string>)
    : set<string>
  {
    PreviousTargets(msgs, uid) * (seen - todo)
  }

  /** Taking one key of the user's snapshot out of the pending set adds it to the targets seen so
      far exactly when the erase acts on it. */
  lemma TargetsStep(msgs: map<string, MsgRecord>, uid: int, seen: set<string>, todo: set<string>, k: string)
    requires k in todo && todo <= seen && k in msgs && OwnedBy(msgs[k], uid)
    ensures PrevAction(msgs[k]) == Erase ==>
              ErasedSoFar(msgs, uid, seen, todo - {k}) == ErasedSoFar(msgs, uid, seen, todo) + {k}
    ensures PrevAction(msgs[k]) != Erase ==>
              ErasedSoFar(msgs, uid, seen, todo - {k}) == ErasedSoFar(msgs, uid, seen, todo)
  {
  }

  /** Marking one more record deleted extends the erased set by its key. */
  lemma EraseStep(msgs: map<string, MsgRecord>, ks: set<string>, k: string, now: int)
    requires k in msgs
    ensures EraseKeys(msgs, ks, now)[k := MarkDeleted(msgs[k], now)] == EraseKeys(msgs, ks + {k}, now)
  {
  }

  // ---------------------------------------------------------------------------------------------
  // The expiry sweep

  /** A record the sweep deletes at `now`: an undeleted object whose delete time parsed and has
      passed, with a truthy user id and message id. */
  predicate Due(r: MsgRecord, now: int) {
    r.Msg? && !r.deleted && r.deleteAt.At? && now >= r.deleteAt.t &&
    r.userId.Some? && r.userId.value != 0 && r.messageId.Val? && r.messageId.value != 0
  }

  /** The keys whose messages one sweep asks the transport to delete. */
  function SweepTargets(msgs: map<string, MsgRecord>, now: int): (ks: set<string>)
    ensures ks <= msgs.Keys
    ensures forall k :: k in ks ==> msgs[k].Msg? && msgs[k].deleteAt.At? && now >= msgs[k].deleteAt.t
    ensures forall k :: k in ks ==> !msgs[k].deleted
  {
    set k | k in msgs && Due(msgs[k], now)
  }

  /** The due keys among those a sweep has already examined (all but `todo`). */
  function SweptSoFar(msgs: map<string, MsgRecord>, now: int, todo: set<string>): set<string> {
    SweepTargets(msgs, now) * (msgs.Keys - todo)
  }

  /** Examining one more key adds it to the attempted deletions exactly when it is due. */
  lemma SweepStep(msgs: map<string, MsgRecord>, now: int, todo: set<string>, k: string)
    requires k in todo && todo <= msgs.Keys
    ensures Due(msgs[k], now) ==> SweptSoFar(msgs, now, todo - {k}) == SweptSoFar(msgs, now, todo) + {k}
    ensures !Due(msgs[k], now) ==> SweptSoFar(msgs, now, todo - {k}) == SweptSoFar(msgs, now, todo)
  {
  }

  /** The store after one sweep. */
  function Swept(msgs: map<string, MsgRecord>, now: int): map<string, MsgRecord> {
    EraseKeys(msgs, SweepTargets(msgs, now), now)
  }

  /** A freshly tracked message becomes due exactly when its 24 hours are up. */
  lemma FreshRecordDue(uid: int, mid: int, isVideo: bool, sent: int, now: int)
    ensures Due(NewRecord(uid, mid, isVideo, sent), now) <==>
            now >= sent + RETENTION && uid != 0 && mid != 0
  {
  }

  /** Records that are not due (malformed, not yet due, already deleted) come out of a sweep
      unchanged, and deleted records stay deleted. */
  lemma SweepKeeps(msgs: map<string, MsgRecord>, now: int, k: string)
    requires k in msgs
    ensures k in Swept(msgs, now)
    ensures !Due(msgs[k], now) ==> Swept(msgs, now)[k] == msgs[k]
    ensures msgs[k].Msg? && msgs[k].deleted ==> Swept(msgs, now)[k].deleted
  {
  }

  /** A second sweep at the same time asks for no deletion and changes nothing. */
  lemma {:induction false} SweepIdempotent(msgs: map<string, MsgRecord>, now: int)
    ensures SweepTargets(Swept(msgs, now), now) == {}
    ensures Swept(Swept(msgs, now), now) == Swept(msgs, now)
  {
    var once := Swept(msgs, now);
    forall k | k in once ensures !Due(once[k], now) {
      if k in SweepTargets(msgs, now) {
        assert once[k].deleted;
      } else {
        assert once[k] == msgs[k];
      }
    }
    assert SweepTargets(once, now) == {};
    assert Swept(once, now) == once;
  }

  // ---------------------------------------------------------------------------------------------
  // Statistics

  function DeletedKeys(msgs: map<string, MsgRecord>): set<string> {
    set k | k in msgs && msgs[k].Msg? && msgs[k].deleted
  }

  function ExpiredKeys(msgs: map<string, MsgRecord>): set<string> {
    set k | k in msgs && msgs[k].Msg? && msgs[k].expired
  }

  function UserIds(msgs: map<string, MsgRecord>): set<int> {
    set k | k in msgs && msgs[k].Msg? && msgs[k].userId.Some? && msgs[k].userId.value != 0 :: msgs[k].userId.value
  }

  datatype MessageStats = MessageStats(total: int, active: int, deleted: int, expired: int, uniqueUsers: int)

  /** `get_message_statistics`. Active is computed as total minus deleted minus expired, so a
      record both deleted and expired is subtracted twice. */
  function MessageStatistics(msgs: map<string, MsgRecord>): (r: MessageStats)
    ensures msgs == map[] ==> r == MessageStats(0, 0, 0, 0, 0)
    ensures r.total == |msgs| && r.active == r.total - r.deleted - r.expired
    ensures r.deleted == |DeletedKeys(msgs)| && r.expired == |ExpiredKeys(msgs)|
    ensures 0 <= r.deleted <= r.total && 0 <= r.expired <= r.total
    ensures r.uniqueUsers == |UserIds(msgs)|
  {
    SubsetCard(DeletedKeys(msgs), msgs.Keys);
    SubsetCard(ExpiredKeys(msgs), msgs.Keys);
    if msgs == map[] then MessageStats(0, 0, 0, 0, 0)
    else
      var total := |msgs|;
      var deleted := |DeletedKeys(msgs)|;
      var expired := |ExpiredKeys(msgs)|;
      MessageStats(total, total - deleted - expired, deleted, expired, |UserIds(msgs)|)
  }

  lemma SubsetCard<T>(a: set<T>, b: set<T>)
    requires a <= b
    ensures |a| <= |b|
  {
    assert b == a + (b - a);
  }

  /** When no record is both deleted and expired, active counts exactly the records that are
      neither (non-object values included). */
  lemma {:induction false} ActiveCountsLive(msgs: map<string, MsgRecord>)
    requires forall k :: k in msgs && msgs[k].Msg? ==> !(msgs[k].deleted && msgs[k].expired)
    ensures MessageStatistics(msgs).active ==
            |set k | k in msgs && !(msgs[k].Msg? && (msgs[k].deleted || msgs[k].expired))|
  {
    var d := DeletedKeys(msgs);
    var e := ExpiredKeys(msgs);
    var live := set k | k in msgs && !(msgs[k].Msg? && (msgs[k].deleted || msgs[k].expired));
    assert d * e == {};
    assert (d + e) * live == {};
    assert msgs.Keys == (d + e) + live;
    assert |d + e| == |d| + |e|;
    assert |msgs.Keys| == |d + e| + |live|;
  }

  /** A sweep keeps the number of records and adds exactly its targets to the deleted count. */
  lemma {:induction false} SweepStats(msgs: map<string, MsgRecord>, now: int)
    ensures MessageStatistics(Swept(msgs, now)).total == MessageStatistics(msgs).total
    ensures MessageStatistics(Swept(msgs, now)).deleted ==
            MessageStatistics(msgs).deleted + |SweepTargets(msgs, now)|
  {
    var after := Swept(msgs, now);
    var t := SweepTargets(msgs, now);
    assert after.Keys == msgs.Keys;
    assert |after| == |after.Keys| == |msgs.Keys| == |msgs|;
    assert DeletedKeys(after) == DeletedKeys(msgs) + t;
    assert DeletedKeys(msgs) * t == {};
  }

  // ---------------------------------------------------------------------------------------------
  // The purge of old records

  /** A record the purge removes: an object created before the cutoff that is deleted or expired. */
  predicate Purgeable(r: MsgRecord, cutoff: int) {
    r.Msg? && r.createdAt.At? && r.createdAt.t < cutoff && (r.deleted || r.expired)
  }

  function PurgeTargets(msgs: map<string, MsgRecord>, cutoff: int): (ks: set<string>)
    ensures ks <= msgs.Keys
  {
    set k | k in msgs && Purgeable(msgs[k], cutoff)
  }

  /** The purgeable keys among those already examined (all but `todo`). */
  function Purged(msgs: map<string, MsgRecord>, cutoff: int, todo: set<string>): set<string> {
    PurgeTargets(msgs, cutoff) * (msgs.Keys - todo)
  }

  /** Examining one more key removes it exactly when it is purgeable, and counts it once. */
  lemma PurgeStep(msgs: map<string, MsgRecord>, cutoff: int, todo: set<string>, k: string)
    requires k in todo && todo <= msgs.Keys
    ensures Purgeable(msgs[k], cutoff) ==>
              Purged(msgs, cutoff, todo - {k}) == Purged(msgs, cutoff, todo) + {k} &&
              |Purged(msgs, cutoff, todo - {k})| == |Purged(msgs, cutoff, todo)| + 1 &&
              (msgs - Purged(msgs, cutoff, todo)) - {k} == msgs - Purged(msgs, cutoff, todo - {k})
    ensures !Purgeable(msgs[k], cutoff) ==> Purged(msgs, cutoff, todo - {k}) == Purged(msgs, cutoff, todo)
  {
    if Purgeable(msgs[k], cutoff) {
      assert Purged(msgs, cutoff, todo - {k}) == Purged(msgs, cutoff, todo) + {k};
      assert k !in Purged(msgs, cutoff, todo);
    }
  }

  /** A creation time that ISO parsing rejects raises outside every per-record guard. */
  predicate PurgeAborts(msgs: map<string, MsgRecord>) {
    exists k :: k in msgs && msgs[k].Msg? && msgs[k].createdAt.Unparseable?
  }

  /** `m` is `m0` after `track_and_schedule_deletion` of message `mid` with the user's earlier
      messages erased first: some of the erase targets, all of them unless the pass stopped or
      the lookup failed, are marked deleted, and the new message is tracked. */
  ghost predicate TrackedAfterErase(m0: map<string, MsgRecord>, m: map<string, MsgRecord>, uid: int,
                                    mid: int, isVideo: bool, now: int)
  {
    exists attempted ::
      attempted <= PreviousTargets(m0, uid) &&
      (HasNonDict(m0) ==> attempted == {}) &&
      (!HasNonDict(m0) && !PreviousBlocked(m0, uid) ==> attempted == PreviousTargets(m0, uid)) &&
      m == EraseKeys(m0, attempted, now)[MessageKey(uid, mid) := NewRecord(uid, mid, isVideo, now)]
  }

  // ---------------------------------------------------------------------------------------------
  // The manager

  class MessageManager {
    const store: JsonStore
    var cleanupRunning: bool
    var botSet: bool

    constructor(store: JsonStore)
      ensures this.store == store && !cleanupRunning && !botSet
    {
      this.store := store;
      cleanupRunning := false;
      botSet := false;
    }

    method SetBot()
      modifies this`botSet
      ensures botSet
    {
      botSet := true;
    }

    /** `_delete_user_previous_messages`: marks the user's live non-video records deleted and
        returns the keys whose messages it asked the transport to delete. */
    method DeleteUserPreviousMessages(uid: int, now: int) returns (attempted: set<string>)
      modifies store`messages
      ensures HasNonDict(old(store.messages)) ==> attempted == {}
      ensures attempted <= PreviousTargets(old(store.messages), uid)
      ensures !HasNonDict(old(store.messages)) && !PreviousBlocked(old(store.messages), uid) ==>
                attempted == PreviousTargets(old(store.messages), uid)
      ensures store.messages == EraseKeys(old(store.messages), attempted, now)
    {
      ghost var m0 := store.messages;
      attempted := {};
      var found := UserMessages(store.messages, uid);
      if found.None? {
        assert store.messages == EraseKeys(m0, attempted, now);
        return;
      }
      var snapshot := found.value;
      var todo := snapshot.Keys;
      while todo != {}
        invariant todo <= snapshot.Keys
        invariant attempted == ErasedSoFar(m0, uid, snapshot.Keys, todo)
        invariant store.messages == EraseKeys(m0, attempted, now)
        invariant forall k :: k in snapshot.Keys - todo ==> PrevAction(m0[k]) != Abort
        decreases |todo|
      {
        var k :| k in todo;
        assert k in m0 && OwnedBy(m0[k], uid) && snapshot[k] == m0[k];
        var rec := snapshot[k];
        var step := PrevAction(rec);
        if step == Abort {
          break;
        }
        TargetsStep(m0, uid, snapshot.Keys, todo, k);
        if step == Erase {
          EraseStep(m0, attempted, k, now);
          attempted := attempted + {k};
          store.SaveMessageTracking(k, MarkDeleted(rec, now));
        }
        todo := todo - {k};
      }
      if todo == {} {
        assert PreviousTargets(m0, uid) <= snapshot.Keys;
        assert attempted == PreviousTargets(m0, uid);
      }
    }

    /** `track_and_schedule_deletion`: optionally erases the user's earlier messages, then tracks
        the new one. Without a bot to act through nothing happens. */
    method TrackAndScheduleDeletion(uid: int, mid: int, deletePrevious: bool, isVideo: bool,
                                    hasBot: bool, now: int) returns (attempted: set<string>)
      modifies store`messages
      ensures !hasBot ==> attempted == {} && store.messages == old(store.messages)
      ensures !deletePrevious ==> attempted == {}
      ensures HasNonDict(old(store.messages)) ==> attempted == {}
      ensures attempted <= PreviousTargets(old(store.messages), uid)
      ensures hasBot && deletePrevious && !HasNonDict(old(store.messages)) &&
              !PreviousBlocked(old(store.messages), uid) ==>
                attempted == PreviousTargets(old(store.messages), uid)
      ensures hasBot ==>
                store.messages == EraseKeys(old(store.messages), attempted, now)[MessageKey(uid, mid) := NewRecord(uid, mid, isVideo, now)]
      ensures hasBot && deletePrevious ==> TrackedAfterErase(old(store.messages), store.messages, uid, mid, isVideo, now)
    {
      attempted := {};
      if !hasBot {
        return;
      }
      if deletePrevious {
        attempted := DeleteUserPreviousMessages(uid, now);
      } else {
        assert store.messages == EraseKeys(old(store.messages), attempted, now);
      }
      store.SaveMessageTracking(MessageKey(uid, mid), NewRecord(uid, mid, isVideo, now));
    }

    /** `_cleanup_expired_messages`: one sweep, or nothing when no bot is set. */
    method CleanupExpiredMessages(now: int) returns (attempted: set<string>)
      modifies store`messages
      ensures !botSet ==> attempted == {} && store.messages == old(store.messages)
      ensures botSet ==> attempted == SweepTargets(old(store.messages), now)
      ensures botSet ==> store.messages == Swept(old(store.messages), now)
    {
      attempted := {};
      if !botSet {
        return;
      }
      ghost var m0 := store.messages;
      var snapshot := store.messages;
      var todo := snapshot.Keys;
      while todo != {}
        invariant todo <= snapshot.Keys
        invariant attempted == SweptSoFar(m0, now, todo)
        invariant store.messages == EraseKeys(m0, attempted, now)
        decreases |todo|
      {
        var k :| k in todo;
        SweepStep(m0, now, todo, k);
        todo := todo - {k};
        var rec := snapshot[k];
        if Due(rec, now) {
          EraseStep(m0, attempted, k, now);
          attempted := attempted + {k};
          store.SaveMessageTracking(k, MarkDeleted(rec, now));
        }
      }
    }

    /** `start_cleanup_scheduler`: a second start while one runs does nothing; otherwise the flag
        is raised and a sweep runs every hour. The model follows the first `rounds` sweeps. */
    method StartCleanupScheduler(now: int, rounds: nat) returns (started: bool)
      modifies this`cleanupRunning, store`messages
      ensures started <==> !old(cleanupRunning)
      ensures cleanupRunning
      ensures !started ==> store.messages == old(store.messages)
      ensures started ==> store.messages == SweptRounds(old(store.messages), now, rounds, botSet)
    {
      if cleanupRunning {
        return false;
      }
      cleanupRunning := true;
      started := true;
      var i := 0;
      while i < rounds
        invariant 0 <= i <= rounds
        invariant cleanupRunning
        invariant SweptRounds(old(store.messages), now, rounds, botSet) ==
                  SweptRounds(store.messages, now + i * SWEEP_INTERVAL, rounds - i, botSet)
        decreases rounds - i
      {
        var _ := CleanupExpiredMessages(now + i * SWEEP_INTERVAL);
        i := i + 1;
      }
    }

    method StopCleanupScheduler()
      modifies this`cleanupRunning
      ensures !cleanupRunning
    {
      cleanupRunning := false;
    }

    /** `cleanup_old_tracking_data`: removes the purgeable records and returns how many, unless a
        record's creation time fails to parse; then the pass stops where it met it, the removals
        made so far stay removed, and the count returned is 0. */
    method CleanupOldTrackingData(now: int, daysOld: int := 7) returns (removed: int)
      modifies store`messages
      ensures var cutoff := now - daysOld * DAY;
              store.messages.Keys <= old(store.messages).Keys &&
              old(store.messages).Keys - store.messages.Keys <= PurgeTargets(old(store.messages), cutoff) &&
              (forall k :: k in store.messages ==> store.messages[k] == old(store.messages)[k])
      ensures var cutoff := now - daysOld * DAY;
              !PurgeAborts(old(store.messages)) ==>
                store.messages == old(store.messages) - PurgeTargets(old(store.messages), cutoff) &&
                removed == |PurgeTargets(old(store.messages), cutoff)|
      ensures PurgeAborts(old(store.messages)) ==> removed == 0
    {
      var cutoff := now - daysOld * DAY;
      ghost var m0 := store.messages;
      var snapshot := store.messages;
      var todo := snapshot.Keys;
      var count := 0;
      while todo != {}
        invariant todo <= snapshot.Keys
        invariant store.messages == m0 - Purged(m0, cutoff, todo)
        invariant count == |Purged(m0, cutoff, todo)|
        invariant forall k :: k in snapshot.Keys - todo ==> !(m0[k].Msg? && m0[k].createdAt.Unparseable?)
        decreases |todo|
      {
        var k :| k in todo;
        PurgeStep(m0, cutoff, todo, k);
        todo := todo - {k};
        var rec := snapshot[k];
        if rec.Msg? && rec.createdAt.Unparseable? {
          return 0;
        }
        if Purgeable(rec, cutoff) {
          store.DeleteMessageTracking(k);
          count := count + 1;
        }
      }
      assert Purged(m0, cutoff, {}) == PurgeTargets(m0, cutoff);
      removed := count;
    }
  }

  /** The store after `rounds` hourly sweeps starting at `now` (none without a bot). */
  function SweptRounds(msgs: map<string, MsgRecord>, now: int, rounds: nat, bot: bool)
    : map<string, MsgRecord>
    decreases rounds
  {
    if rounds == 0 || !bot then msgs
    else SweptRounds(Swept(msgs, now), now + SWEEP_INTERVAL, rounds - 1, bot)
  }
}
