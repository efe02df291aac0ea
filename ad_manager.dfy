/** The ad rotator: seeds two text ads into an empty store, picks an active ad at random for each
    viewing, sends it, counts views, and lets the admin add, update and delete ads. */
module AdRotation {
  import opened Common
  import opened Records
  import opened JsonStorage

  /** `ad.get('active', True)`: an ad without the key is active, one holding None is not. */
  predicate IsActive(a: Ad) {
    match a.active
    case Missing => true
    case Null => false
    case Val(b) => b
  }

  /** `ad.get('views', 0)`. */
  function ViewsOf(a: Ad): int {
    a.views.GetOr(0)
  }

  function ActiveIds(ads: map<string, Ad>): set<string> {
    set k | k in ads && IsActive(ads[k])
  }

  // ---------------------------------------------------------------------------------------------
  // Seeding

  const AD_1_CONTENT: string :=
    "🎯 Special Offer! Get 50% off premium subscriptions!\n\nUse code: SAVE50\n\n⏰ Limited time offer!"
  const AD_5_CONTENT: string :=
    "🎮 Gamers unite! New gaming accessories available!\n\nProfessional grade equipment for serious players.\n\n🏆 Level up your game!"

  /** A seeded ad: text, five seconds, active, no link. */
  function DefaultAd(id: string, content: string, now: int): Ad {
    Ad(id, Some("text"), Some(content), Missing, Some(5), Val(true), None, None, Some(now), None)
  }

  function DefaultAds(now: int): map<string, Ad> {
    map["ad_1" := DefaultAd("ad_1", AD_1_CONTENT, now), "ad_5" := DefaultAd("ad_5", AD_5_CONTENT, now)]
  }

  /** `_initialize_default_ads`: an empty store receives the two defaults, any other is left alone. */
  function Seeded(ads: map<string, Ad>, now: int): (r: map<string, Ad>)
    ensures ads != map[] ==> r == ads
    ensures ads == map[] ==> r.Keys == {"ad_1", "ad_5"} && ActiveIds(r) == {"ad_1", "ad_5"} && WellKeyed(r)
  {
    if ads == map[] then DefaultAds(now) else ads
  }

  // ---------------------------------------------------------------------------------------------
  // View counting

  /** Every ad is stored under its own id, as `save_ad` keys it. */
  predicate WellKeyed(ads: map<string, Ad>) {
    forall k :: k in ads ==> ads[k].id == k
  }

  /** `_update_ad_stats`: the ad read under `id` gets one more view (a missing count is 0) and a
      new last-shown time and is saved under its own id; an unknown id changes nothing. In a
      well-keyed store that is exactly one more view for that ad and nothing else. */
  function Bumped(ads: map<string, Ad>, id: string, now: int): (r: map<string, Ad>)
    ensures id !in ads ==> r == ads
    ensures WellKeyed(ads) ==> WellKeyed(r) && r.Keys == ads.Keys
    ensures WellKeyed(ads) ==> forall k :: k in ads && k != id ==> r[k] == ads[k]
    ensures WellKeyed(ads) && id in ads ==>
              ViewsOf(r[id]) == ViewsOf(ads[id]) + 1 && r[id].lastShown == Some(now) &&
              r[id] == ads[id].(views := r[id].views, lastShown := Some(now))
  {
    if id in ads then
      var a := ads[id].(views := Some(ViewsOf(ads[id]) + 1), lastShown := Some(now));
      ads[a.id := a]
    else ads
  }

  /** The sum of `views` over all ads. */
  ghost function TotalViews(ads: map<string, Ad>): int
    decreases |ads|
  {
    if ads == map[] then 0
    else
      var k := PickKey(ads);
      ViewsOf(ads[k]) + TotalViews(ads - {k})
  }

  ghost function PickKey(ads: map<string, Ad>): (k: string)
    requires ads != map[]
    ensures k in ads
  {
    var k :| k in ads; k
  }

  /** The sum does not depend on which ad is taken out first. */
  lemma {:induction false} TotalViewsRemove(ads: map<string, Ad>, k: string)
    requires k in ads
    ensures TotalViews(ads) == ViewsOf(ads[k]) + TotalViews(ads - {k})
    decreases |ads|
  {
    var j := PickKey(ads);
    if j != k {
      var rest := ads - {j};
      assert k in rest;
      TotalViewsRemove(rest, k);
      assert rest - {k} == (ads - {k}) - {j};
      assert j in ads - {k};
      TotalViewsRemove(ads - {k}, j);
      assert |ads - {k}| < |ads|;
    }
  }

  /** Counting a view raises the total by exactly one. */
  lemma TotalViewsBumped(ads: map<string, Ad>, id: string, now: int)
    requires WellKeyed(ads) && id in ads
    ensures TotalViews(Bumped(ads, id, now)) == TotalViews(ads) + 1
  {
    var b := Bumped(ads, id, now);
    TotalViewsRemove(ads, id);
    TotalViewsRemove(b, id);
    assert b - {id} == ads - {id};
  }

  // ---------------------------------------------------------------------------------------------
  // Statistics

  /** `b` names an ad with the most views. */
  predicate IsMaxKey(ads: map<string, Ad>, b: string) {
    b in ads && forall k :: k in ads ==> ViewsOf(ads[k]) <= ViewsOf(ads[b])
  }

  /** Some ad has the most views. */
  lemma {:induction false} MaxExists(ads: map<string, Ad>)
    requires ads != map[]
    ensures exists b :: IsMaxKey(ads, b)
    decreases |ads|
  {
    var j := PickKey(ads);
    var rest := ads - {j};
    assert ads.Keys == rest.Keys + {j};
    if rest == map[] {
      assert ads.Keys == {j};
      assert IsMaxKey(ads, j);
    } else {
      MaxExists(rest);
      var b :| IsMaxKey(rest, b);
      var m := if ViewsOf(ads[j]) <= ViewsOf(ads[b]) then b else j;
      forall k | k in ads ensures ViewsOf(ads[k]) <= ViewsOf(ads[m]) {
        if k != j { assert k in rest; }
      }
      assert IsMaxKey(ads, m);
    }
  }

  /** `max(ads.values(), key=views)`; which of several equally viewed ads is reported depends on
      dictionary order and is left open. */
  ghost function MostPopular(ads: map<string, Ad>): (r: Option<string>)
    ensures r.None? <==> ads == map[]
    ensures r.Some? ==> r.value in ads && forall k :: k in ads ==> ViewsOf(ads[k]) <= ViewsOf(ads[r.value])
  {
    if ads == map[] then None
    else
      MaxExists(ads);
      var b :| IsMaxKey(ads, b);
      Some(b)
  }

  datatype AdStats = AdStats(total: int, active: int, totalViews: int,
                             mostPopularId: Option<string>, mostPopularViews: int)

  /** `get_ad_statistics`: counts, the view total and the most viewed ad (None and 0 for no ads). */
  ghost function AdStatistics(ads: map<string, Ad>): (r: AdStats)
    ensures r.total == |ads| && r.active == |ActiveIds(ads)| && r.totalViews == TotalViews(ads)
    ensures ads == map[] ==> r.mostPopularId == None && r.mostPopularViews == 0 && r.totalViews == 0
    ensures ads != map[] ==>
              exists b :: b in ads && r.mostPopularId == Some(ads[b].id) &&
                r.mostPopularViews == ViewsOf(ads[b]) &&
                forall k :: k in ads ==> ViewsOf(ads[k]) <= r.mostPopularViews
  {
    var best := MostPopular(ads);
    AdStats(|ads|, |ActiveIds(ads)|, TotalViews(ads),
            if best.Some? then Some(ads[best.value].id) else None,
            if best.Some? then ViewsOf(ads[best.value]) else 0)
  }

  // ---------------------------------------------------------------------------------------------
  // Adding and updating

  /** The fields an admin submits for a new ad; only a missing `content` key makes `add_ad` fail,
      one holding None is saved as None. */
  datatype AdInput = AdInput(id: Option<string>, kind: Slot<string>, content: Slot<string>,
                             duration: Slot<int>, active: Slot<bool>)

  /** The id `add_ad` stores under: the given one if truthy, else one built from the clock. */
  function NewAdId(input: AdInput, stamp: string): string {
    if input.id.Some? && input.id.value != "" then input.id.value else "ad_" + stamp
  }

  /** The fields `update_ad` overlays; `None` leaves a field as it is. An `updated_at` in the
      update is not a field here, since it is overwritten right after the overlay. */
  datatype AdPatch = AdPatch(id: Option<string>, kind: Option<Option<string>>, content: Option<Option<string>>,
                             url: Option<Option<string>>, duration: Option<Option<int>>,
                             active: Option<Option<bool>>, views: Option<Option<int>>,
                             lastShown: Option<Option<int>>, createdAt: Option<Option<int>>)

  function Over<T>(p: Option<T>, current: T): T {
    if p.Some? then p.value else current
  }

  function SlotOf<T>(o: Option<T>): Slot<T> {
    if o.Some? then Val(o.value) else Null
  }

  /** `ad.update(updates)`: given keys replace the stored ones, every other field is kept. */
  function Overlay(a: Ad, p: AdPatch): Ad {
    a.(id := Over(p.id, a.id), kind := Over(p.kind, a.kind), content := Over(p.content, a.content),
       url := if p.url.Some? then SlotOf(p.url.value) else a.url,
       duration := Over(p.duration, a.duration),
       active := if p.active.Some? then SlotOf(p.active.value) else a.active,
       views := Over(p.views, a.views), lastShown := Over(p.lastShown, a.lastShown),
       createdAt := Over(p.createdAt, a.createdAt))
  }

  const EmptyPatch: AdPatch := AdPatch(None, None, None, None, None, None, None, None, None)

  /** An empty update only stamps the update time and rewrites the ad under its own id. */
  lemma EmptyUpdate(ads: map<string, Ad>, adId: string, now: int)
    requires adId in ads
    ensures var n := Overlay(ads[adId], EmptyPatch).(updatedAt := Some(now));
            n == ads[adId].(updatedAt := Some(now))
  {
  }

  /** An update that changes the id saves a copy under the new id and leaves the old entry. */
  lemma UpdateRekeys(ads: map<string, Ad>, adId: string, p: AdPatch, now: int)
    requires adId in ads && p.id.Some? && p.id.value != adId
    ensures var n := Overlay(ads[adId], p).(updatedAt := Some(now));
            var r := ads[n.id := n];
            adId in r && r[adId] == ads[adId] && p.id.value in r
  {
  }

  // ---------------------------------------------------------------------------------------------
  // Send errors

  /** How `send_ad_to_user` reads the text of a send error. */
  function AdSendFailure(errorText: string): (d: Delivery)
    ensures d != Success
  {
    var e := Lower(errorText);
    if Contains(e, "forbidden") || Contains(e, "bot can't initiate conversation") then Forbidden
    else OtherFailure
  }

  /** A send error reads as a user who has not started the bot exactly when its text mentions
      "forbidden" or "bot can't initiate conversation", in any letter case; every other error is
      re-raised and ends as a plain failure. */
  lemma SendErrorClassified(errorText: string)
    ensures AdSendFailure(errorText) == Forbidden <==>
              MentionsAnyCase(errorText, "forbidden") ||
              MentionsAnyCase(errorText, "bot can't initiate conversation")
    ensures AdSendFailure(errorText) == OtherFailure <==>
              !MentionsAnyCase(errorText, "forbidden") &&
              !MentionsAnyCase(errorText, "bot can't initiate conversation")
  {
    LoweredSearch(errorText, "forbidden");
    LoweredSearch(errorText, "bot can't initiate conversation");
  }

  /** How one attempt to send the ad ended: `sendError` is the text of the exception
      `send_message` raised, None when the message went out. */
  function SendOutcome(sendError: Option<string>): (d: Delivery)
    ensures d == Success <==> sendError.None?
  {
    if sendError.None? then Success else AdSendFailure(sendError.value)
  }

  // ---------------------------------------------------------------------------------------------
  // The manager

  /** `ads` is `ads0` after ad `k` was picked for a showing: saved again under its own id with the
      new last-shown time. */
  predicate Picked(ads0: map<string, Ad>, ads: map<string, Ad>, k: string, now: int) {
    k in ads0 && ads == ads0[ads0[k].id := ads0[k].(lastShown := Some(now))]
  }

  /** `ads` is `ads0` after ad `k` was picked and sent: picked as above, and its view counted only
      when the send succeeded. */
  predicate ShownAd(ads0: map<string, Ad>, ads: map<string, Ad>, k: string, outcome: Delivery, now: int) {
    k in ads0 &&
    var a := ads0[k].(lastShown := Some(now));
    ads == (if outcome == Success then Bumped(ads0[a.id := a], a.id, now) else ads0[a.id := a])
  }

  /** The effect of showing ad `k`, the next in rotation, to `uid`: on success the session is
      started with the ad's id and the ad's view counted; otherwise only its rotation time is
      saved and the reply says whether the user had not started the bot. */
  predicate RotatedAndSent(ads0: map<string, Ad>, ads: map<string, Ad>,
                           states0: map<int, UserState>, states: map<int, UserState>, k: string,
                           uid: int, videoId: string, token: string, outcome: Delivery,
                           info: string, now: int)
  {
    k in ads0 && ShownAd(ads0, ads, k, outcome, now) &&
    (outcome == Success ==>
       info == ads0[k].id && states == states0[uid := SessionRecord(ads0[k].id, videoId, token, now)]) &&
    (outcome != Success ==>
       info == (if outcome == Forbidden then "user_not_started" else "") && states == states0)
  }

  class AdManager {
    const store: JsonStore

    /** Creating a manager seeds the defaults into an empty store. */
    constructor(store: JsonStore, now: int)
      modifies store`ads
      ensures this.store == store
      ensures store.ads == Seeded(old(store.ads), now)
    {
      this.store := store;
      new;
      InitializeDefaultAds(now);
    }

    method InitializeDefaultAds(now: int)
      modifies store`ads
      ensures store.ads == Seeded(old(store.ads), now)
    {
      if store.ads == map[] {
        var defaults := [DefaultAd("ad_1", AD_1_CONTENT, now), DefaultAd("ad_5", AD_5_CONTENT, now)];
        for i := 0 to |defaults|
          invariant i == 0 ==> store.ads == map[]
          invariant i == 1 ==> store.ads == map["ad_1" := defaults[0]]
          invariant i == 2 ==> store.ads == DefaultAds(now)
        {
          store.SaveAd(defaults[i]);
        }
      }
    }

    /** `get_next_ad`: None, saving nothing, when no ad is active; otherwise some active ad, saved
        with a new last-shown time. */
    method GetNextAd(now: int) returns (r: Option<Ad>)
      modifies store`ads
      ensures WellKeyed(old(store.ads)) ==> WellKeyed(store.ads)
      ensures ActiveIds(old(store.ads)) == {} <==> r.None?
      ensures r.None? ==> store.ads == old(store.ads)
      ensures r.Some? ==> exists k :: k in ActiveIds(old(store.ads)) &&
                            r.value == old(store.ads)[k].(lastShown := Some(now))
      ensures r.Some? ==> store.ads == old(store.ads)[r.value.id := r.value]
      ensures r.Some? ==> exists k :: k in ActiveIds(old(store.ads)) && Picked(old(store.ads), store.ads, k, now) &&
                                      r.value.id == old(store.ads)[k].id
    {
      var active := ActiveIds(store.ads);
      if active == {} {
        return None;
      }
      var k :| k in active;
      var chosen := store.ads[k].(lastShown := Some(now));
      store.SaveAd(chosen);
      r := Some(chosen);
    }

    method UpdateAdStats(adId: string, now: int)
      modifies store`ads
      ensures WellKeyed(old(store.ads)) ==> WellKeyed(store.ads)
      ensures store.ads == Bumped(old(store.ads), adId, now)
    {
      var found := store.GetAd(adId);
      if found.Some? {
        var a := found.value;
        store.SaveAd(a.(views := Some(ViewsOf(a) + 1), lastShown := Some(now)));
      }
    }

    /** `send_ad_to_user`: the session is started and the view counted only after the DM went out;
        a user who has not started the bot gets "user_not_started", any other failure "". */
    method SendAdToUser(uid: int, videoId: string, token: string, sendError: Option<string>, now: int)
      returns (sent: bool, info: string)
      modifies store`ads, store`userStates
      ensures WellKeyed(old(store.ads)) ==> WellKeyed(store.ads)
      ensures sent <==> ActiveIds(old(store.ads)) != {} && SendOutcome(sendError) == Success
      ensures sent ==> store.userStates == old(store.userStates)[uid := SessionRecord(info, videoId, token, now)]
      ensures !sent ==> store.userStates == old(store.userStates)
      ensures !sent ==> (info == "user_not_started" <==> ActiveIds(old(store.ads)) != {} && SendOutcome(sendError) == Forbidden)
      ensures ActiveIds(old(store.ads)) == {} ==>
                info == "" && store.ads == old(store.ads) && store.userStates == old(store.userStates)
      ensures ActiveIds(old(store.ads)) != {} ==>
                exists k :: k in ActiveIds(old(store.ads)) &&
                  RotatedAndSent(old(store.ads), store.ads, old(store.userStates), store.userStates,
                                 k, uid, videoId, token, SendOutcome(sendError), info, now)
    {
      ghost var ads0 := store.ads;
      var ad := GetNextAd(now);
      if ad.None? {
        return false, "";
      }
      var a := ad.value;
      ghost var k :| k in ActiveIds(ads0) && a == ads0[k].(lastShown := Some(now));
      var outcome := SendOutcome(sendError);
      if outcome == Forbidden {
        return false, "user_not_started";
      }
      if outcome == OtherFailure {
        return false, "";
      }
      store.StartAdSession(uid, a.id, videoId, token, now);
      UpdateAdStats(a.id, now);
      sent, info := true, a.id;
    }

    /** `add_ad`: saves a new ad with no views, type text, five seconds and active unless given
        otherwise; without a content key the lookup raises, nothing is saved and the id returned
        is "". */
    method AddAd(input: AdInput, stamp: string, now: int) returns (id: string)
      modifies store`ads
      ensures WellKeyed(old(store.ads)) ==> WellKeyed(store.ads)
      ensures input.content.Missing? ==> id == "" && store.ads == old(store.ads)
      ensures !input.content.Missing? ==>
                id == NewAdId(input, stamp) && store.ads.Keys == old(store.ads).Keys + {id} &&
                (forall k :: k in old(store.ads) && k != id ==> store.ads[k] == old(store.ads)[k]) &&
                var a := store.ads[id];
                a.id == id && a.content == input.content.Get() && a.views == Some(0) &&
                a.kind == input.kind.GetWithDefault(Some("text")) &&
                a.duration == input.duration.GetWithDefault(Some(5)) &&
                a.active == (if input.active.Missing? then Val(true) else input.active) &&
                a.url.Missing? && a.createdAt == Some(now) && a.lastShown == None && a.updatedAt == None
    {
      var adId := NewAdId(input, stamp);
      if input.content.Missing? {
        return "";
      }
      var a := Ad(adId, input.kind.GetWithDefault(Some("text")), input.content.Get(), Missing,
                  input.duration.GetWithDefault(Some(5)),
                  if input.active.Missing? then Val(true) else input.active,
                  Some(0), None, Some(now), None);
      store.SaveAd(a);
      id := adId;
    }

    /** `update_ad`: false and no write for an unknown ad; otherwise the overlay, stamped with the
        update time, is saved under its (possibly new) id. */
    method UpdateAd(adId: string, p: AdPatch, now: int) returns (ok: bool)
      modifies store`ads
      ensures WellKeyed(old(store.ads)) ==> WellKeyed(store.ads)
      ensures ok <==> adId in old(store.ads)
      ensures !ok ==> store.ads == old(store.ads)
      ensures ok ==> var n := Overlay(old(store.ads)[adId], p).(updatedAt := Some(now));
                     store.ads == old(store.ads)[n.id := n]
    {
      var found := store.GetAd(adId);
      if found.None? {
        return false;
      }
      var n := Overlay(found.value, p).(updatedAt := Some(now));
      store.SaveAd(n);
      ok := true;
    }

    /** `delete_ad` reports success whether or not the ad existed. */
    method DeleteAd(adId: string) returns (ok: bool)
      modifies store`ads
      ensures WellKeyed(old(store.ads)) ==> WellKeyed(store.ads)
      ensures ok && store.ads == old(store.ads) - {adId}
    {
      store.DeleteAd(adId);
      ok := true;
    }
  }
}
