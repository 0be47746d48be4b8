/**
 * The persistent tables the handlers read and write (`users`,
 * `sign_records`, `chat_records`, `subscriptions`), kept in memory, and the
 * queries the handlers run on them.
 *
 * Tables are sequences in insertion order. Auto-increment keys and
 * creation timestamps of records are not kept: no rule of the modelled code
 * reads them, except that chat history is read in creation order, which is
 * insertion order here.
 */
module Store {
  import opened Basics

  type UserId = nat

  /** The two values of the `type` column of a sign record. */
  const SignKind: string := "sign"
  const BreakKind: string := "break"

  /** Daily limit on user chat messages (`MaxChatPerDay`). */
  const MaxChatPerDay: nat := 10

  datatype User = User(id: UserId, openId: string, nickname: string)

  /** A row of `sign_records`; `date` is `YYYY-MM-DD` text, `kind` is "sign", "break" or anything else. */
  datatype SignRecord = SignRecord(userId: UserId, date: string, kind: string)

  /**
   * A row of `chat_records`. `day` is the calendar date of `created_at`.
   * `msgId` exists in the table but no modelled code sets it.
   */
  datatype ChatRecord = ChatRecord(userId: UserId, content: string, isUser: bool, day: string, msgId: string)

  /** A row of `subscriptions` with its preloaded `User`. */
  datatype Subscription = Subscription(userId: UserId, isAuth: bool, user: User)

  // ---------------------------------------------------------------------
  // Queries on sign_records
  // ---------------------------------------------------------------------

  predicate Matches(r: SignRecord, uid: UserId, date: string, kind: string) {
    r.userId == uid && r.date == date && r.kind == kind
  }

  /** `COUNT(*) WHERE user_id = uid AND date = date AND type = kind`. */
  function CountOn(rs: seq<SignRecord>, uid: UserId, date: string, kind: string): nat
    decreases |rs|
  {
    if rs == [] then 0
    else CountOn(rs[..|rs| - 1], uid, date, kind) + (if Matches(rs[|rs| - 1], uid, date, kind) then 1 else 0)
  }

  lemma CountOnAppend(rs: seq<SignRecord>, r: SignRecord, uid: UserId, date: string, kind: string)
    ensures CountOn(rs + [r], uid, date, kind)
         == CountOn(rs, uid, date, kind) + (if Matches(r, uid, date, kind) then 1 else 0)
  {
    assert (rs + [r])[..|rs|] == rs;
  }

  /** No matching row exactly when the count is zero. */
  lemma {:induction false} CountOnZero(rs: seq<SignRecord>, uid: UserId, date: string, kind: string)
    ensures CountOn(rs, uid, date, kind) == 0 <==> forall i :: 0 <= i < |rs| ==> !Matches(rs[i], uid, date, kind)
    decreases |rs|
  {
    if rs != [] {
      var init := rs[..|rs| - 1];
      CountOnZero(init, uid, date, kind);
      assert forall i :: 0 <= i < |init| ==> init[i] == rs[i];
    }
  }

  /** Rows that `DELETE WHERE user_id = uid AND type = 'sign'` leaves in place. */
  predicate SurvivesSignDelete(r: SignRecord, uid: UserId) {
    !(r.userId == uid && r.kind == SignKind)
  }

  /** The table after `DELETE WHERE user_id = uid AND type = 'sign'`. */
  function RemoveSigns(rs: seq<SignRecord>, uid: UserId): seq<SignRecord>
    decreases |rs|
  {
    if rs == [] then []
    else RemoveSigns(rs[..|rs| - 1], uid) + (if SurvivesSignDelete(rs[|rs| - 1], uid) then [rs[|rs| - 1]] else [])
  }

  /** Rows satisfying `keep`, in table order (a `WHERE` clause). */
  function Where(rs: seq<SignRecord>, keep: SignRecord -> bool): seq<SignRecord>
    decreases |rs|
  {
    if rs == [] then []
    else Where(rs[..|rs| - 1], keep) + (if keep(rs[|rs| - 1]) then [rs[|rs| - 1]] else [])
  }

  /**
   * The delete touches nothing but the user's sign rows: any query that
   * selects only surviving rows (another user's rows, the user's breaks)
   * returns the same rows, in the same order, before and after.
   */
  lemma {:induction false} RemoveSignsInvisible(rs: seq<SignRecord>, uid: UserId, keep: SignRecord -> bool)
    requires forall r :: keep(r) ==> SurvivesSignDelete(r, uid)
    ensures Where(RemoveSigns(rs, uid), keep) == Where(rs, keep)
    decreases |rs|
  {
    if rs != [] {
      var init, last := rs[..|rs| - 1], rs[|rs| - 1];
      RemoveSignsInvisible(init, uid, keep);
      var tail := if SurvivesSignDelete(last, uid) then [last] else [];
      WhereAppend(RemoveSigns(init, uid), tail, keep);
    }
  }

  lemma {:induction false} WhereAppend(a: seq<SignRecord>, b: seq<SignRecord>, keep: SignRecord -> bool)
    ensures Where(a + b, keep) == Where(a, keep) + Where(b, keep)
    decreases |b|
  {
    if b != [] {
      var init, last := b[..|b| - 1], b[|b| - 1];
      assert (a + b)[..|a + b| - 1] == a + init;
      assert (a + b)[|a + b| - 1] == last;
      WhereAppend(a, init, keep);
      var tail := if keep(last) then [last] else [];
      assert Where(a + b, keep) == Where(a + init, keep) + tail;
      assert Where(b, keep) == Where(init, keep) + tail;
    } else {
      assert a + b == a;
    }
  }

  /** The delete never raises a count. */
  lemma {:induction false} RemoveSignsShrinks(rs: seq<SignRecord>, uid: UserId, u: UserId, date: string, kind: string)
    ensures CountOn(RemoveSigns(rs, uid), u, date, kind) <= CountOn(rs, u, date, kind)
    decreases |rs|
  {
    if rs != [] {
      var init, last := rs[..|rs| - 1], rs[|rs| - 1];
      RemoveSignsShrinks(init, uid, u, date, kind);
      assert CountOn(rs, u, date, kind) >= CountOn(init, u, date, kind);
      if SurvivesSignDelete(last, uid) {
        CountOnAppend(RemoveSigns(init, uid), last, u, date, kind);
        assert RemoveSigns(rs, uid) == RemoveSigns(init, uid) + [last];
      } else {
        assert RemoveSigns(rs, uid) == RemoveSigns(init, uid);
      }
    }
  }

  /** `WHERE user_id = uid`: the user's rows in table order. */
  function RecordsOf(rs: seq<SignRecord>, uid: UserId): (mine: seq<SignRecord>)
    ensures forall r :: r in mine <==> r in rs && r.userId == uid
    decreases |rs|
  {
    if rs == [] then []
    else RecordsOf(rs[..|rs| - 1], uid) + (if rs[|rs| - 1].userId == uid then [rs[|rs| - 1]] else [])
  }

  lemma RecordsOfAppend(rs: seq<SignRecord>, r: SignRecord, uid: UserId)
    ensures RecordsOf(rs + [r], uid) == RecordsOf(rs, uid) + (if r.userId == uid then [r] else [])
  {
    assert (rs + [r])[..|rs|] == rs;
  }

  /** The ledger rule: at most one sign row per user per day. */
  ghost predicate OneSignPerDay(rs: seq<SignRecord>) {
    forall u: UserId, d: string :: CountOn(rs, u, d, SignKind) <= 1
  }

  // ---------------------------------------------------------------------
  // Queries on chat_records
  // ---------------------------------------------------------------------

  predicate SentBy(c: ChatRecord, uid: UserId, day: string) {
    c.userId == uid && c.isUser && c.day == day
  }

  /** `COUNT(*) WHERE user_id = uid AND is_user = 1 AND DATE(created_at) = day`. */
  function UserMessagesOn(cs: seq<ChatRecord>, uid: UserId, day: string): nat
    decreases |cs|
  {
    if cs == [] then 0
    else UserMessagesOn(cs[..|cs| - 1], uid, day) + (if SentBy(cs[|cs| - 1], uid, day) then 1 else 0)
  }

  lemma UserMessagesAppend(cs: seq<ChatRecord>, c: ChatRecord, uid: UserId, day: string)
    ensures UserMessagesOn(cs + [c], uid, day) == UserMessagesOn(cs, uid, day) + (if SentBy(c, uid, day) then 1 else 0)
  {
    assert (cs + [c])[..|cs|] == cs;
  }

  /** `WHERE user_id = uid ORDER BY created_at ASC`: the user's rows in insertion order. */
  function HistoryOf(cs: seq<ChatRecord>, uid: UserId): (h: seq<ChatRecord>)
    ensures forall c :: c in h <==> c in cs && c.userId == uid
    decreases |cs|
  {
    if cs == [] then []
    else HistoryOf(cs[..|cs| - 1], uid) + (if cs[|cs| - 1].userId == uid then [cs[|cs| - 1]] else [])
  }

  lemma HistoryAppend(cs: seq<ChatRecord>, c: ChatRecord)
    ensures HistoryOf(cs + [c], c.userId) == HistoryOf(cs, c.userId) + [c]
  {
    assert (cs + [c])[..|cs|] == cs;
  }

  /** The daily limit holds for every user and day. */
  ghost predicate WithinDailyLimit(cs: seq<ChatRecord>) {
    forall u: UserId, d: string :: UserMessagesOn(cs, u, d) <= MaxChatPerDay
  }

  // ---------------------------------------------------------------------
  // The database
  // ---------------------------------------------------------------------

  /** `db.GetDB()`: the tables, plus the next auto-increment user id. */
  class Database {
    var users: map<string, User>
    var nextUserId: UserId
    var signRecords: seq<SignRecord>
    var chatRecords: seq<ChatRecord>
    var subscriptions: seq<Subscription>

    /**
     * `users` is keyed by the unique `open_id` column, ids are distinct
     * (the primary key) and were all handed out before, and the ledger and
     * chat limits hold.
     */
    ghost predicate Valid()
      reads this
    {
      && (forall k :: k in users ==> users[k].openId == k && users[k].id < nextUserId)
      && (forall k, l :: k in users && l in users && k != l ==> users[k].id != users[l].id)
      && OneSignPerDay(signRecords)
      && WithinDailyLimit(chatRecords)
    }

    constructor ()
      ensures Valid()
      ensures users == map[] && nextUserId == 1
      ensures signRecords == [] && chatRecords == [] && subscriptions == []
    {
      users := map[];
      nextUserId := 1;
      signRecords := [];
      chatRecords := [];
      subscriptions := [];
    }
  }

  /** `WHERE open_id = openid .First(&user)`: `None` is `ErrRecordNotFound`. */
  function FindUser(users: map<string, User>, openid: string): (r: Option<User>)
    ensures r.Some? <==> openid in users
    ensures r.Some? ==> r.value == users[openid]
  {
    if openid in users then Some(users[openid]) else None
  }
}
