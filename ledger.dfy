/**
 * The sign-in ledger handlers: `/api/signin`, `/api/break`, and the
 * get-or-create user lookup they share with `/api/chat`.
 *
 * Store failures are parameters: `userInsertOk` says whether creating a
 * missing user succeeds, `insertOk` whether inserting the ledger row
 * succeeds. "today" is a parameter holding `time.Now()` in `YYYY-MM-DD` form.
 */
module Ledger {
  import opened Basics
  import opened Store

  /** An HTTP status with the message or error text of its JSON body. */
  datatype Reply = Reply(status: int, text: string)

  const OpenIdRequired: string := "openid required"
  const UserLookupFailed: string := "user error"
  const AlreadySigned: string := "already signed in today"
  const StoreFailed: string := "db error"
  const SignedIn: string := "sign in success"
  const BrokeStreak: string := "break success"
  const UserNotFound: string := "user not found"

  /**
   * How resolving `openid` changes the users table: an existing user is
   * left as it is; a missing one is inserted with the next id, the openid
   * and the nickname when the insert succeeds; otherwise nothing changes.
   */
  twostate predicate ResolvesUser(db: Database, openid: string, nickname: string, userInsertOk: bool)
    reads db
  {
    if openid in old(db.users) || !userInsertOk then
      db.users == old(db.users) && db.nextUserId == old(db.nextUserId)
    else
      && db.users == old(db.users)[openid := User(old(db.nextUserId), openid, nickname)]
      && db.nextUserId == old(db.nextUserId) + 1
  }

  /**
   * `getOrCreateUserByOpenID`: an existing user is returned as stored (its
   * nickname is not updated); a missing one is inserted with the next id.
   */
  method GetOrCreateUser(db: Database, openid: string, nickname: string, userInsertOk: bool) returns (r: Option<User>)
    requires db.Valid()
    modifies db
    ensures db.Valid()
    ensures db.signRecords == old(db.signRecords) && db.chatRecords == old(db.chatRecords)
    ensures db.subscriptions == old(db.subscriptions)
    ensures ResolvesUser(db, openid, nickname, userInsertOk)
    ensures openid in old(db.users) ==> r == Some(old(db.users)[openid])
    ensures openid !in old(db.users) ==> (r.Some? <==> userInsertOk)
    ensures r.Some? <==> openid in db.users
    ensures r.Some? ==> db.users[openid] == r.value
  {
    if openid in db.users {
      return Some(db.users[openid]);
    }
    if !userInsertOk {
      return None;
    }
    var user := User(db.nextUserId, openid, nickname);
    db.users := db.users[openid := user];
    db.nextUserId := db.nextUserId + 1;
    r := Some(user);
  }

  /** Adding a sign row for a (user, day) that has none keeps one sign row per user per day. */
  lemma {:induction false} SignKeepsOnePerDay(rs: seq<SignRecord>, uid: UserId, today: string)
    requires OneSignPerDay(rs)
    requires CountOn(rs, uid, today, SignKind) == 0
    ensures OneSignPerDay(rs + [SignRecord(uid, today, SignKind)])
  {
    forall u: UserId, d: string ensures CountOn(rs + [SignRecord(uid, today, SignKind)], u, d, SignKind) <= 1 {
      CountOnAppend(rs, SignRecord(uid, today, SignKind), u, d, SignKind);
    }
  }

  /** Deleting the user's sign rows and adding a break row keeps one sign row per user per day. */
  lemma {:induction false} BreakKeepsOnePerDay(rs: seq<SignRecord>, uid: UserId, today: string)
    requires OneSignPerDay(rs)
    ensures OneSignPerDay(RemoveSigns(rs, uid) + [SignRecord(uid, today, BreakKind)])
  {
    forall u: UserId, d: string ensures CountOn(RemoveSigns(rs, uid) + [SignRecord(uid, today, BreakKind)], u, d, SignKind) <= 1 {
      CountOnAppend(RemoveSigns(rs, uid), SignRecord(uid, today, BreakKind), u, d, SignKind);
      RemoveSignsShrinks(rs, uid, u, d, SignKind);
    }
  }

  /**
   * `SignInHandler`: a sign row for (user, today) is added only when the
   * user has none; a second sign-in on the same day is refused and leaves
   * the table as it was.
   */
  method SignIn(db: Database, openid: string, nickname: string, today: string, userInsertOk: bool, insertOk: bool)
    returns (reply: Reply)
    requires db.Valid()
    modifies db
    ensures db.Valid()
    ensures db.chatRecords == old(db.chatRecords) && db.subscriptions == old(db.subscriptions)
    ensures openid == "" ==>
      && reply == Reply(400, OpenIdRequired) && db.signRecords == old(db.signRecords)
      && db.users == old(db.users) && db.nextUserId == old(db.nextUserId)
    ensures openid != "" ==> ResolvesUser(db, openid, nickname, userInsertOk)
    ensures openid != "" && openid !in db.users ==>
      reply == Reply(500, UserLookupFailed) && db.signRecords == old(db.signRecords)
    ensures openid != "" && openid in db.users ==>
      var uid := db.users[openid].id;
      if CountOn(old(db.signRecords), uid, today, SignKind) > 0 then
        reply == Reply(400, AlreadySigned) && db.signRecords == old(db.signRecords)
      else if insertOk then
        reply == Reply(200, SignedIn) && db.signRecords == old(db.signRecords) + [SignRecord(uid, today, SignKind)]
      else
        reply == Reply(500, StoreFailed) && db.signRecords == old(db.signRecords)
  {
    if openid == "" {
      return Reply(400, OpenIdRequired);
    }
    var user := GetOrCreateUser(db, openid, nickname, userInsertOk);
    if user.None? {
      return Reply(500, UserLookupFailed);
    }
    var uid := user.value.id;
    var count := CountOn(db.signRecords, uid, today, SignKind);
    if count > 0 {
      return Reply(400, AlreadySigned);
    }
    if !insertOk {
      return Reply(500, StoreFailed);
    }
    SignKeepsOnePerDay(db.signRecords, uid, today);
    db.signRecords := db.signRecords + [SignRecord(uid, today, SignKind)];
    reply := Reply(200, SignedIn);
  }

  /**
   * `BreakHandler`: a break row for today is inserted, then every sign row
   * of the user is deleted. Other users' rows and the user's other rows are
   * kept (see `Store.RemoveSignsInvisible`).
   */
  method Break(db: Database, openid: string, nickname: string, today: string, userInsertOk: bool, insertOk: bool)
    returns (reply: Reply)
    requires db.Valid()
    modifies db
    ensures db.Valid()
    ensures db.chatRecords == old(db.chatRecords) && db.subscriptions == old(db.subscriptions)
    ensures openid == "" ==>
      && reply == Reply(400, OpenIdRequired) && db.signRecords == old(db.signRecords)
      && db.users == old(db.users) && db.nextUserId == old(db.nextUserId)
    ensures openid != "" ==> ResolvesUser(db, openid, nickname, userInsertOk)
    ensures openid != "" && openid !in db.users ==>
      reply == Reply(500, UserLookupFailed) && db.signRecords == old(db.signRecords)
    ensures openid != "" && openid in db.users ==>
      var uid := db.users[openid].id;
      if insertOk then
        reply == Reply(200, BrokeStreak)
        && db.signRecords == RemoveSigns(old(db.signRecords), uid) + [SignRecord(uid, today, BreakKind)]
      else
        reply == Reply(500, StoreFailed) && db.signRecords == old(db.signRecords)
  {
    if openid == "" {
      return Reply(400, OpenIdRequired);
    }
    var user := GetOrCreateUser(db, openid, nickname, userInsertOk);
    if user.None? {
      return Reply(500, UserLookupFailed);
    }
    var uid := user.value.id;
    if !insertOk {
      return Reply(500, StoreFailed);
    }
    ghost var before := db.signRecords;
    var record := SignRecord(uid, today, BreakKind);
    db.signRecords := db.signRecords + [record];
    assert (before + [record])[..|before|] == before;
    db.signRecords := RemoveSigns(db.signRecords, uid);
    BreakKeepsOnePerDay(before, uid, today);
    reply := Reply(200, BrokeStreak);
  }
}
