/**
 * The nightly reminder: the sweep over authorised subscriptions, and the
 * time of its next run.
 *
 * The store's answers and the WeChat round trips met while one
 * subscription is processed are an oracle `probe(i)`, indexed by the
 * subscription's position in the table. The clock is in whole seconds of
 * local time, with days of fixed length.
 */
module Scheduler {
  import opened Basics
  import opened Store
  import Notification

  /** What the world answers while subscription `i` is processed. */
  datatype Probe = Probe(
    signCountOk: bool,                   // the query counting today's sign rows succeeds
    breakCountOk: bool,                  // the query counting today's break rows succeeds
    now: int,                            // the clock when the reminder is sent
    stamp: string,                       // that time as "2006-01-02 15:04:05" text
    fetch: Notification.FetchOutcome,    // the token request, if one is made
    post: Notification.PostOutcome)      // the send request, if one is made

  /**
   * A reminder is attempted for an authorised subscription whose two count
   * queries succeed and show neither a sign nor a break row today.
   */
  predicate Due(s: Subscription, records: seq<SignRecord>, today: string, p: Probe) {
    && s.isAuth && p.signCountOk && p.breakCountOk
    && CountOn(records, s.user.id, today, SignKind) == 0
    && CountOn(records, s.user.id, today, BreakKind) == 0
  }

  /** Number of due subscriptions among the first `n`. */
  function DueCount(subs: seq<Subscription>, records: seq<SignRecord>, today: string, probe: nat -> Probe, n: nat): nat
    requires n <= |subs|
  {
    if n == 0 then 0
    else DueCount(subs, records, today, probe, n - 1) + (if Due(subs[n - 1], records, today, probe(n - 1)) then 1 else 0)
  }

  /** Subscription `i` after the sweep: the one-shot authorisation is spent exactly when a reminder was attempted. */
  function Swept(subs: seq<Subscription>, records: seq<SignRecord>, today: string, probe: nat -> Probe, i: nat): Subscription
    requires i < |subs|
  {
    subs[i].(isAuth := subs[i].isAuth && !Due(subs[i], records, today, probe(i)))
  }

  /** The reminder that subscription `i` receives when one is posted. */
  function ReminderFor(subs: seq<Subscription>, templateId: string, probe: nat -> Probe, i: nat): Notification.TemplateMessage
    requires i < |subs|
  {
    Notification.TemplateMessage(subs[i].user.openId, templateId, Notification.ReminderPage,
                                 Notification.ReminderData(probe(i).stamp))
  }

  /**
   * The token cache after the first `n` subscriptions of the sweep: each due
   * subscription performs one token lookup, in table order, starting from `c0`.
   */
  function CacheAfter(c0: Notification.CacheState, subs: seq<Subscription>, records: seq<SignRecord>, today: string,
                      probe: nat -> Probe, n: nat): Notification.CacheState
    requires n <= |subs|
  {
    if n == 0 then c0
    else
      var c := CacheAfter(c0, subs, records, today, probe, n - 1);
      if Due(subs[n - 1], records, today, probe(n - 1)) then Notification.LookupState(c, probe(n - 1).now, probe(n - 1).fetch)
      else c
  }

  /**
   * Subscription `i` is posted to in a sweep starting from cache `c0`: it is
   * due, and the token lookup on the cache as the earlier subscriptions left
   * it yields a token.
   */
  predicate PostsAt(c0: Notification.CacheState, subs: seq<Subscription>, records: seq<SignRecord>, today: string,
                    probe: nat -> Probe, i: nat)
    requires i < |subs|
  {
    && Due(subs[i], records, today, probe(i))
    && var c := CacheAfter(c0, subs, records, today, probe, i);
       Notification.LookupResult(Notification.FreshState(c, probe(i).now), c.token, probe(i).fetch).Ok?
  }

  /** A due subscription whose token request would succeed is always posted to, whatever the cache holds. */
  lemma {:induction false} PostsWhenFetchSucceeds(c0: Notification.CacheState, subs: seq<Subscription>, records: seq<SignRecord>,
                                                  today: string, probe: nat -> Probe, i: nat)
    requires i < |subs|
    requires Due(subs[i], records, today, probe(i)) && Notification.FetchResult(probe(i).fetch).Ok?
    ensures PostsAt(c0, subs, records, today, probe, i)
  {
  }

  /**
   * After a lookup with a successful fetch the cache holds that token, so a
   * later due subscription inside its refresh window is posted to with no
   * fetch of its own, however that fetch would end.
   */
  lemma {:induction false} FetchedTokenIsReused(c0: Notification.CacheState, subs: seq<Subscription>, records: seq<SignRecord>,
                                                today: string, probe: nat -> Probe, i: nat)
    requires i + 1 < |subs|
    requires Due(subs[i], records, today, probe(i)) && Due(subs[i + 1], records, today, probe(i + 1))
    requires !Notification.FreshState(CacheAfter(c0, subs, records, today, probe, i), probe(i).now)
    requires Notification.FetchResult(probe(i).fetch).Ok?
    requires probe(i).fetch.response.accessToken != ""
    requires probe(i + 1).now < probe(i).now + (probe(i).fetch.response.expiresIn - Notification.RefreshAhead)
    ensures PostsAt(c0, subs, records, today, probe, i + 1)
    ensures CacheAfter(c0, subs, records, today, probe, i + 2) == CacheAfter(c0, subs, records, today, probe, i + 1)
  {
    var c1 := CacheAfter(c0, subs, records, today, probe, i + 1);
    assert c1 == Notification.CacheState(probe(i).fetch.response.accessToken, probe(i).now, probe(i).fetch.response.expiresIn);
    assert Notification.FreshState(c1, probe(i + 1).now);
  }

  /** Among the first `bound` subscriptions, those in `posted` are exactly the ones `PostsAt` names. */
  ghost predicate PostedExactly(c0: Notification.CacheState, subs: seq<Subscription>, records: seq<SignRecord>, today: string,
                                probe: nat -> Probe, posted: seq<nat>, bound: nat)
    requires bound <= |subs|
  {
    forall j :: 0 <= j < bound ==> (j in posted <==> PostsAt(c0, subs, records, today, probe, j))
  }

  lemma PostedExactlyStep(c0: Notification.CacheState, subs: seq<Subscription>, records: seq<SignRecord>, today: string,
                          probe: nat -> Probe, posted: seq<nat>, bound: nat, postsNow: bool)
    requires bound < |subs|
    requires PostedExactly(c0, subs, records, today, probe, posted, bound)
    requires forall k :: 0 <= k < |posted| ==> posted[k] < bound
    requires postsNow <==> PostsAt(c0, subs, records, today, probe, bound)
    ensures PostedExactly(c0, subs, records, today, probe, if postsNow then posted + [bound] else posted, bound + 1)
  {
    var posted' := if postsNow then posted + [bound] else posted;
    forall j | 0 <= j < bound + 1
      ensures j in posted' <==> PostsAt(c0, subs, records, today, probe, j)
    {
      if j == bound {
        assert bound !in posted;
      }
    }
  }

  /** Number of the posts to subscriptions `posted` whose response reports success. */
  function Successes(probe: nat -> Probe, posted: seq<nat>): nat
    decreases |posted|
  {
    if posted == [] then 0
    else Successes(probe, posted[..|posted| - 1])
         + (if Notification.PostResult(probe(posted[|posted| - 1]).post).None? then 1 else 0)
  }

  /**
   * `outbox[k]` is the reminder posted to subscription `posted[k]`, which
   * lies below `bound`, was due, and follows the earlier ones in table order.
   */
  ghost predicate PostedToDue(subs: seq<Subscription>, records: seq<SignRecord>, today: string, templateId: string,
                              probe: nat -> Probe, outbox: seq<Notification.TemplateMessage>, posted: seq<nat>, bound: nat)
  {
    && bound <= |subs| && |outbox| == |posted|
    && (forall k :: 0 <= k < |posted| ==>
          && posted[k] < bound && Due(subs[posted[k]], records, today, probe(posted[k]))
          && outbox[k] == ReminderFor(subs, templateId, probe, posted[k]))
    && (forall k, l :: 0 <= k < l < |posted| ==> posted[k] < posted[l])
  }

  lemma PostedToDueWiden(subs: seq<Subscription>, records: seq<SignRecord>, today: string, templateId: string,
                         probe: nat -> Probe, outbox: seq<Notification.TemplateMessage>, posted: seq<nat>, bound: nat)
    requires bound < |subs|
    requires PostedToDue(subs, records, today, templateId, probe, outbox, posted, bound)
    ensures PostedToDue(subs, records, today, templateId, probe, outbox, posted, bound + 1)
  {
  }

  lemma PostedToDueExtend(subs: seq<Subscription>, records: seq<SignRecord>, today: string, templateId: string,
                          probe: nat -> Probe, outbox: seq<Notification.TemplateMessage>, posted: seq<nat>, bound: nat)
    requires bound < |subs|
    requires PostedToDue(subs, records, today, templateId, probe, outbox, posted, bound)
    requires Due(subs[bound], records, today, probe(bound))
    ensures PostedToDue(subs, records, today, templateId, probe,
                        outbox + [ReminderFor(subs, templateId, probe, bound)], posted + [bound], bound + 1)
  {
  }

  /**
   * One iteration of the sweep, for subscription `i`: skip it when it is
   * not authorised or a count query fails, otherwise remind the user when
   * there is neither a sign nor a break row today, and spend the
   * authorisation on both the failure and the success branch.
   */
  method RemindOne(db: Database, cache: Notification.TokenCache, records: seq<SignRecord>, today: string,
                   templateId: string, i: nat, p: Probe)
    returns (attempted: bool, succeeded: bool, sent: Option<Notification.TemplateMessage>)
    requires i < |db.subscriptions|
    modifies db`subscriptions, cache
    ensures var sub := old(db.subscriptions[i]);
      && attempted == Due(sub, records, today, p)
      && db.subscriptions == old(db.subscriptions)[i := sub.(isAuth := sub.isAuth && !attempted)]
      && (sent.Some? ==> sent.value == Notification.TemplateMessage(
            sub.user.openId, templateId, Notification.ReminderPage, Notification.ReminderData(p.stamp)))
    ensures cache.State() == if attempted then Notification.LookupState(old(cache.State()), p.now, p.fetch) else old(cache.State())
    ensures sent.Some? <==> attempted && Notification.LookupResult(
      Notification.FreshState(old(cache.State()), p.now), old(cache.State()).token, p.fetch).Ok?
    ensures succeeded <==> sent.Some? && Notification.PostResult(p.post).None?
    ensures !attempted ==> sent == None && !succeeded && unchanged(cache)
    ensures attempted ==> cache.AfterLookup(p.now, p.fetch)
    ensures attempted ==>
      match Notification.LookupResult(old(cache.Fresh(p.now)), old(cache.accessToken), p.fetch)
      case Err(_) => sent == None && !succeeded
      case Ok(_) => sent.Some? && (succeeded <==> Notification.PostResult(p.post).None?)
  {
    attempted, succeeded, sent := false, false, None;
    var sub := db.subscriptions[i];
    if !sub.isAuth || !p.signCountOk {
      return;
    }
    var signCount := CountOn(records, sub.user.id, today, SignKind);
    if !p.breakCountOk {
      return;
    }
    var breakCount := CountOn(records, sub.user.id, today, BreakKind);
    if signCount == 0 && breakCount == 0 {
      attempted := true;
      var err;
      err, sent := Notification.SendSignInReminder(cache, sub.user.openId, p.stamp, templateId, p.now, p.fetch, p.post);
      if err.Some? {
        db.subscriptions := db.subscriptions[i := sub.(isAuth := false)];
      } else {
        succeeded := true;
        db.subscriptions := db.subscriptions[i := sub.(isAuth := false)];
      }
    } else {
      assert !Due(sub, records, today, p);
    }
  }

  /**
   * The state of the sweep after the first `i` subscriptions, as values:
   * the table `cur`, the cache `c`, the two counters, and what was posted.
   */
  ghost predicate SweptUpTo(c0: Notification.CacheState, subs: seq<Subscription>, records: seq<SignRecord>, today: string,
                            templateId: string, probe: nat -> Probe, cur: seq<Subscription>, c: Notification.CacheState,
                            reminderCount: nat, successCount: nat, outbox: seq<Notification.TemplateMessage>,
                            posted: seq<nat>, i: nat)
    requires i <= |subs|
  {
    && |cur| == |subs|
    && (forall j :: 0 <= j < i ==> cur[j] == Swept(subs, records, today, probe, j))
    && (forall j :: i <= j < |subs| ==> cur[j] == subs[j])
    && reminderCount == DueCount(subs, records, today, probe, i)
    && successCount == Successes(probe, posted) <= reminderCount && |outbox| <= reminderCount
    && PostedToDue(subs, records, today, templateId, probe, outbox, posted, i)
    && PostedExactly(c0, subs, records, today, probe, posted, i)
    && c == CacheAfter(c0, subs, records, today, probe, i)
  }

  /** One iteration of the sweep, given what `RemindOne` promises, keeps `SweptUpTo`. */
  lemma SweepStep(c0: Notification.CacheState, subs: seq<Subscription>, records: seq<SignRecord>, today: string,
                  templateId: string, probe: nat -> Probe, cur: seq<Subscription>, c: Notification.CacheState,
                  reminderCount: nat, successCount: nat, outbox: seq<Notification.TemplateMessage>, posted: seq<nat>, i: nat,
                  attempted: bool, succeeded: bool, sent: Option<Notification.TemplateMessage>,
                  cur': seq<Subscription>, c': Notification.CacheState)
    requires i < |subs|
    requires SweptUpTo(c0, subs, records, today, templateId, probe, cur, c, reminderCount, successCount, outbox, posted, i)
    requires attempted == Due(cur[i], records, today, probe(i))
    requires cur' == cur[i := cur[i].(isAuth := cur[i].isAuth && !attempted)]
    requires c' == if attempted then Notification.LookupState(c, probe(i).now, probe(i).fetch) else c
    requires sent.Some? <==> attempted && Notification.LookupResult(Notification.FreshState(c, probe(i).now), c.token, probe(i).fetch).Ok?
    requires sent.Some? ==> sent.value == ReminderFor(subs, templateId, probe, i)
    requires succeeded <==> sent.Some? && Notification.PostResult(probe(i).post).None?
    ensures SweptUpTo(c0, subs, records, today, templateId, probe, cur', c',
                      reminderCount + (if attempted then 1 else 0), successCount + (if succeeded then 1 else 0),
                      if sent.Some? then outbox + [sent.value] else outbox,
                      if sent.Some? then posted + [i] else posted, i + 1)
  {
    PostedExactlyStep(c0, subs, records, today, probe, posted, i, sent.Some?);
    if sent.Some? {
      assert (posted + [i])[..|posted|] == posted;
      PostedToDueExtend(subs, records, today, templateId, probe, outbox, posted, i);
    } else {
      PostedToDueWiden(subs, records, today, templateId, probe, outbox, posted, i);
    }
  }

  /**
   * The loop of `CheckAndSendReminders` over the subscription table: every
   * due subscription gets one attempted reminder and loses its
   * authorisation whether or not the send succeeds; every other
   * subscription is left as it was. `outbox` lists the messages actually
   * posted; `posted[k]` is the subscription that `outbox[k]` went to, in
   * table order: exactly the due ones whose token lookup, on the cache as
   * the earlier lookups left it, yields a token. The cache ends as those
   * lookups leave it.
   */
  method Sweep(db: Database, cache: Notification.TokenCache, today: string, templateId: string, probe: nat -> Probe)
    returns (reminderCount: nat, successCount: nat, outbox: seq<Notification.TemplateMessage>, ghost posted: seq<nat>)
    modifies db`subscriptions, cache
    ensures var subs := old(db.subscriptions);
      && |db.subscriptions| == |subs|
      && (forall i :: 0 <= i < |subs| ==> db.subscriptions[i] == Swept(subs, db.signRecords, today, probe, i))
      && reminderCount == DueCount(subs, db.signRecords, today, probe, |subs|)
      && successCount == Successes(probe, posted) <= reminderCount
      && |outbox| <= reminderCount
      && PostedToDue(subs, db.signRecords, today, templateId, probe, outbox, posted, |subs|)
      && PostedExactly(old(cache.State()), subs, db.signRecords, today, probe, posted, |subs|)
      && cache.State() == CacheAfter(old(cache.State()), subs, db.signRecords, today, probe, |subs|)
  {
    reminderCount, successCount, outbox, posted := 0, 0, [], [];
    ghost var subs := db.subscriptions;
    ghost var c0 := cache.State();
    var records := db.signRecords;
    for i: nat := 0 to |db.subscriptions|
      invariant i <= |subs|
      invariant SweptUpTo(c0, subs, records, today, templateId, probe, db.subscriptions, cache.State(),
                          reminderCount, successCount, outbox, posted, i)
    {
      ghost var cur, c := db.subscriptions, cache.State();
      var attempted, succeeded, sent := RemindOne(db, cache, records, today, templateId, i, probe(i));
      SweepStep(c0, subs, records, today, templateId, probe, cur, c, reminderCount, successCount, outbox, posted, i,
                attempted, succeeded, sent, db.subscriptions, cache.State());
      reminderCount := reminderCount + if attempted then 1 else 0;
      successCount := successCount + if succeeded then 1 else 0;
      if sent.Some? {
        outbox, posted := outbox + [sent.value], posted + [i];
      }
    }
  }

  /**
   * `CheckAndSendReminders`: with no database, or when the query for
   * authorised subscriptions fails, nothing happens; otherwise the sweep
   * runs. Only the `is_auth` flags of subscriptions change.
   */
  method CheckAndSendReminders(db: Database?, cache: Notification.TokenCache, today: string,
                               listOk: bool, templateId: string, probe: nat -> Probe)
    returns (reminderCount: nat, successCount: nat, outbox: seq<Notification.TemplateMessage>, ghost posted: seq<nat>)
    requires db != null ==> db.Valid()
    modifies db, cache
    ensures db != null ==> db.Valid()
    ensures db == null || !listOk ==>
      reminderCount == 0 && successCount == 0 && outbox == [] && unchanged(cache)
    ensures db != null ==>
      && db.users == old(db.users) && db.nextUserId == old(db.nextUserId)
      && db.signRecords == old(db.signRecords) && db.chatRecords == old(db.chatRecords)
    ensures db != null && !listOk ==> db.subscriptions == old(db.subscriptions)
    ensures db != null && listOk ==>
      var subs := old(db.subscriptions);
      && |db.subscriptions| == |subs|
      && (forall i :: 0 <= i < |subs| ==> db.subscriptions[i] == Swept(subs, db.signRecords, today, probe, i))
      && reminderCount == DueCount(subs, db.signRecords, today, probe, |subs|)
      && successCount == Successes(probe, posted) <= reminderCount
      && |outbox| <= reminderCount
      && PostedToDue(subs, db.signRecords, today, templateId, probe, outbox, posted, |subs|)
      && PostedExactly(old(cache.State()), subs, db.signRecords, today, probe, posted, |subs|)
      && cache.State() == CacheAfter(old(cache.State()), subs, db.signRecords, today, probe, |subs|)
  {
    reminderCount, successCount, outbox, posted := 0, 0, [], [];
    if db == null || !listOk {
      return;
    }
    reminderCount, successCount, outbox, posted := Sweep(db, cache, today, templateId, probe);
  }

  // ---------------------------------------------------------------------
  // Next run
  // ---------------------------------------------------------------------

  const SecondsPerDay: int := 86400

  /** 20:30 as seconds after midnight. */
  const ReminderTime: int := 20 * 3600 + 30 * 60

  /**
   * The loop in `StartScheduler`: today at 20:30, or 24 hours later when
   * `now` is already after it. The result is the first 20:30 at or after
   * `now`, less than a day ahead.
   */
  function NextRun(now: int): (next: int)
    ensures now <= next < now + SecondsPerDay
    ensures next % SecondsPerDay == ReminderTime
  {
    var today2030 := now - now % SecondsPerDay + ReminderTime;
    if now > today2030 then today2030 + SecondsPerDay else today2030
  }

  /** No 20:30 lies between `now` and the next run. */
  lemma NextRunIsEarliest(now: int, t: int)
    requires now <= t && t % SecondsPerDay == ReminderTime
    ensures NextRun(now) <= t
  {
  }
}
