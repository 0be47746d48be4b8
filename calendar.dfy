/**
 * `/api/calendar`: totals, the current streak and the per-date calendar of
 * one user's sign records, read in ascending date order.
 *
 * The handler runs three loops over the records; `Stats` keeps the three
 * loops, and each is proved against a left fold (`CountKind`,
 * `StreakAfter`, `CalendarOf`) whose meaning the lemmas below state.
 */
module Calendar {
  import opened Basics
  import opened Store
  import Dates
  import Ledger

  // ---------------------------------------------------------------------
  // Totals
  // ---------------------------------------------------------------------

  /** Number of records whose `type` is `kind`. */
  function CountKind(rs: seq<SignRecord>, kind: string): nat
    decreases |rs|
  {
    if rs == [] then 0
    else CountKind(rs[..|rs| - 1], kind) + (if rs[|rs| - 1].kind == kind then 1 else 0)
  }

  /** The records' types, in order. */
  function KindsOf(rs: seq<SignRecord>): seq<string> {
    seq(|rs|, i requires 0 <= i < |rs| => rs[i].kind)
  }

  /**
   * A total counts exactly the records of its type: it is the multiplicity
   * of `kind` among the records' types, so a record of any other type
   * (including an unknown one) adds to neither total.
   */
  lemma {:induction false} CountKindIsMultiplicity(rs: seq<SignRecord>, kind: string)
    ensures CountKind(rs, kind) == multiset(KindsOf(rs))[kind]
    decreases |rs|
  {
    if rs != [] {
      var init := rs[..|rs| - 1];
      CountKindIsMultiplicity(init, kind);
      assert KindsOf(rs) == KindsOf(init) + [rs[|rs| - 1].kind];
    }
  }

  lemma CountKindAppend(rs: seq<SignRecord>, r: SignRecord, kind: string)
    ensures CountKind(rs + [r], kind) == CountKind(rs, kind) + (if r.kind == kind then 1 else 0)
  {
    assert (rs + [r])[..|rs|] == rs;
  }

  // ---------------------------------------------------------------------
  // Current streak
  // ---------------------------------------------------------------------

  /** The streak loop's variables: `streak` and `lastDate`. */
  datatype Streak = Streak(length: nat, lastDate: string)

  const NoStreak := Streak(0, "")

  /**
   * One iteration: a break resets the streak and moves `lastDate`; a sign
   * extends the streak when it is the first dated record or falls on
   * `nextDay(lastDate)`, and otherwise restarts it at 1; other types are
   * skipped.
   */
  function StreakStep(s: Streak, r: SignRecord): Streak {
    if r.kind == BreakKind then Streak(0, r.date)
    else if r.kind == SignKind then
      Streak(if s.lastDate == "" || Dates.NextDay(s.lastDate) == r.date then s.length + 1 else 1, r.date)
    else s
  }

  /** The streak after the whole sequence. */
  function StreakAfter(rs: seq<SignRecord>): Streak
    decreases |rs|
  {
    if rs == [] then NoStreak else StreakStep(StreakAfter(rs[..|rs| - 1]), rs[|rs| - 1])
  }

  lemma StreakAfterAppend(rs: seq<SignRecord>, r: SignRecord)
    ensures StreakAfter(rs + [r]) == StreakStep(StreakAfter(rs), r)
  {
    assert (rs + [r])[..|rs|] == rs;
  }

  /** `current_streak` never exceeds `total_sign`. */
  lemma {:induction false} StreakAtMostSigns(rs: seq<SignRecord>)
    ensures StreakAfter(rs).length <= CountKind(rs, SignKind)
    decreases |rs|
  {
    if rs != [] {
      StreakAtMostSigns(rs[..|rs| - 1]);
    }
  }

  /** After a break only the sign records that follow it can count toward the streak. */
  lemma {:induction false} BreakResetsStreak(pre: seq<SignRecord>, b: SignRecord, post: seq<SignRecord>)
    requires b.kind == BreakKind
    ensures StreakAfter(pre + [b] + post).length <= CountKind(post, SignKind)
    decreases |post|
  {
    if post == [] {
      assert pre + [b] + post == pre + [b];
      StreakAfterAppend(pre, b);
    } else {
      var init, last := post[..|post| - 1], post[|post| - 1];
      BreakResetsStreak(pre, b, init);
      assert pre + [b] + post == (pre + [b] + init) + [last];
      StreakAfterAppend(pre + [b] + init, last);
    }
  }

  /** Sign records on consecutive days: each falls on `nextDay` of the one before. */
  predicate ConsecutiveSigns(rs: seq<SignRecord>) {
    && (forall i :: 0 <= i < |rs| ==> rs[i].kind == SignKind)
    && (forall i :: 0 < i < |rs| ==> rs[i].date == Dates.NextDay(rs[i - 1].date))
  }

  /**
   * A run of sign records on consecutive days has a streak as long as the
   * run. (With `Dates.NextDayOfFormat`, such a run is one sign record per
   * calendar day from the first record's date on.)
   */
  lemma {:induction false} StreakOfConsecutiveSigns(rs: seq<SignRecord>)
    requires rs != [] && ConsecutiveSigns(rs)
    ensures StreakAfter(rs) == Streak(|rs|, rs[|rs| - 1].date)
    decreases |rs|
  {
    var init := rs[..|rs| - 1];
    if init != [] {
      assert ConsecutiveSigns(init) by {
        forall i | 0 < i < |init| ensures init[i].date == Dates.NextDay(init[i - 1].date) {
          assert init[i] == rs[i] && init[i - 1] == rs[i - 1];
        }
      }
      StreakOfConsecutiveSigns(init);
      assert rs[|rs| - 1].date == Dates.NextDay(rs[|rs| - 2].date);
    }
  }

  // ---------------------------------------------------------------------
  // Calendar map
  // ---------------------------------------------------------------------

  /** One iteration of the calendar loop: "break" overrides, "sign" never replaces "break". */
  function CalendarStep(cal: map<string, string>, r: SignRecord): map<string, string> {
    if r.kind == BreakKind then cal[r.date := BreakKind]
    else if r.kind == SignKind then
      (if r.date in cal && cal[r.date] == BreakKind then cal else cal[r.date := SignKind])
    else cal
  }

  function CalendarOf(rs: seq<SignRecord>): map<string, string>
    decreases |rs|
  {
    if rs == [] then map[] else CalendarStep(CalendarOf(rs[..|rs| - 1]), rs[|rs| - 1])
  }

  /** Some record of type `kind` has date `d`. */
  predicate HasOn(rs: seq<SignRecord>, d: string, kind: string) {
    exists i :: 0 <= i < |rs| && rs[i].date == d && rs[i].kind == kind
  }

  lemma HasOnSnoc(rs: seq<SignRecord>, d: string, kind: string)
    requires rs != []
    ensures HasOn(rs, d, kind) <==>
      HasOn(rs[..|rs| - 1], d, kind) || (rs[|rs| - 1].date == d && rs[|rs| - 1].kind == kind)
  {
    var init := rs[..|rs| - 1];
    if HasOn(rs, d, kind) {
      var i :| 0 <= i < |rs| && rs[i].date == d && rs[i].kind == kind;
      if i < |init| {
        assert init[i] == rs[i];
      }
    }
    if HasOn(init, d, kind) {
      var i :| 0 <= i < |init| && init[i].date == d && init[i].kind == kind;
      assert rs[i] == init[i];
    }
  }

  /**
   * Whatever the order of the records, a date maps to "break" exactly when
   * some break record has that date, to "sign" exactly when it has sign
   * records and no break record, and is absent when it has neither.
   */
  lemma {:induction false} CalendarMeaning(rs: seq<SignRecord>, d: string)
    ensures d in CalendarOf(rs) <==> HasOn(rs, d, SignKind) || HasOn(rs, d, BreakKind)
    ensures d in CalendarOf(rs) && CalendarOf(rs)[d] == BreakKind <==> HasOn(rs, d, BreakKind)
    ensures d in CalendarOf(rs) && CalendarOf(rs)[d] == SignKind <==>
      HasOn(rs, d, SignKind) && !HasOn(rs, d, BreakKind)
    decreases |rs|
  {
    if rs != [] {
      CalendarMeaning(rs[..|rs| - 1], d);
      HasOnSnoc(rs, d, SignKind);
      HasOnSnoc(rs, d, BreakKind);
    }
  }

  // ---------------------------------------------------------------------
  // Order independence
  // ---------------------------------------------------------------------

  lemma {:induction false} CountKindConcat(u: seq<SignRecord>, v: seq<SignRecord>, kind: string)
    ensures CountKind(u + v, kind) == CountKind(u, kind) + CountKind(v, kind)
    decreases |v|
  {
    if v == [] {
      assert u + v == u;
    } else {
      var init, last := v[..|v| - 1], v[|v| - 1];
      CountKindConcat(u, init, kind);
      assert u + v == (u + init) + [last];
      CountKindAppend(u + init, last, kind);
    }
  }

  /** The totals depend only on which records there are, not on their order. */
  lemma {:induction false} CountKindIgnoresOrder(a: seq<SignRecord>, b: seq<SignRecord>, kind: string)
    requires multiset(a) == multiset(b)
    ensures CountKind(a, kind) == CountKind(b, kind)
    decreases |a|
  {
    if a != [] {
      var init, last := a[..|a| - 1], a[|a| - 1];
      assert a == init + [last];
      assert last in multiset(b);
      var j :| 0 <= j < |b| && b[j] == last;
      var rest := b[..j] + b[j + 1..];
      assert b == b[..j] + [last] + b[j + 1..];
      assert multiset(b) == multiset(b[..j]) + multiset{last} + multiset(b[j + 1..]);
      assert multiset(rest) == multiset(b[..j]) + multiset(b[j + 1..]);
      assert multiset(a) == multiset(init) + multiset{last};
      assert multiset(init) == multiset(a) - multiset{last};
      assert multiset(rest) == multiset(b) - multiset{last};
      CountKindIgnoresOrder(init, rest, kind);
      CountKindAppend(init, last, kind);
      CountKindConcat(b[..j] + [last], b[j + 1..], kind);
      CountKindAppend(b[..j], last, kind);
      CountKindConcat(b[..j], b[j + 1..], kind);
    }
  }

  lemma HasOnIgnoresOrder(a: seq<SignRecord>, b: seq<SignRecord>, d: string, kind: string)
    requires multiset(a) == multiset(b)
    ensures HasOn(a, d, kind) <==> HasOn(b, d, kind)
  {
    if HasOn(a, d, kind) {
      var i :| 0 <= i < |a| && a[i].date == d && a[i].kind == kind;
      assert a[i] in multiset(b);
      var j :| 0 <= j < |b| && b[j] == a[i];
    }
    if HasOn(b, d, kind) {
      var j :| 0 <= j < |b| && b[j].date == d && b[j].kind == kind;
      assert b[j] in multiset(a);
      var i :| 0 <= i < |a| && a[i] == b[j];
    }
  }

  /**
   * The calendar map, like the totals, is the same for every order of the
   * same records; only the streak follows the order.
   */
  lemma CalendarIgnoresOrder(a: seq<SignRecord>, b: seq<SignRecord>)
    requires multiset(a) == multiset(b)
    ensures CountKind(a, SignKind) == CountKind(b, SignKind)
    ensures CountKind(a, BreakKind) == CountKind(b, BreakKind)
    ensures CalendarOf(a) == CalendarOf(b)
  {
    CountKindIgnoresOrder(a, b, SignKind);
    CountKindIgnoresOrder(a, b, BreakKind);
    forall d: string ensures (d in CalendarOf(a) <==> d in CalendarOf(b))
                             && (d in CalendarOf(a) ==> CalendarOf(a)[d] == CalendarOf(b)[d]) {
      CalendarMeaning(a, d);
      CalendarMeaning(b, d);
      HasOnIgnoresOrder(a, b, d, SignKind);
      HasOnIgnoresOrder(a, b, d, BreakKind);
    }
  }

  // ---------------------------------------------------------------------
  // The handler
  // ---------------------------------------------------------------------

  /** The three loops of `CalendarHandler` over the user's date-ordered records. */
  method Stats(records: seq<SignRecord>)
    returns (totalSign: nat, totalBreak: nat, currentStreak: nat, calendar: map<string, string>)
    ensures totalSign == CountKind(records, SignKind)
    ensures totalBreak == CountKind(records, BreakKind)
    ensures currentStreak == StreakAfter(records).length
    ensures calendar == CalendarOf(records)
  {
    totalSign, totalBreak := 0, 0;
    for i := 0 to |records|
      invariant totalSign == CountKind(records[..i], SignKind)
      invariant totalBreak == CountKind(records[..i], BreakKind)
    {
      assert records[..i + 1] == records[..i] + [records[i]];
      CountKindAppend(records[..i], records[i], SignKind);
      CountKindAppend(records[..i], records[i], BreakKind);
      var r := records[i];
      if r.kind == SignKind {
        totalSign := totalSign + 1;
      } else if r.kind == BreakKind {
        totalBreak := totalBreak + 1;
      }
    }
    assert records[..|records|] == records;

    var streak: nat := 0;
    var lastDate := "";
    for i := 0 to |records|
      invariant Streak(streak, lastDate) == StreakAfter(records[..i])
    {
      assert records[..i + 1] == records[..i] + [records[i]];
      StreakAfterAppend(records[..i], records[i]);
      var r := records[i];
      if r.kind == BreakKind {
        streak := 0;
        lastDate := r.date;
        continue;
      }
      if r.kind == SignKind {
        if lastDate == "" || Dates.NextDay(lastDate) == r.date {
          streak := streak + 1;
        } else {
          streak := 1;
        }
        lastDate := r.date;
      }
    }
    currentStreak := streak;

    calendar := map[];
    for i := 0 to |records|
      invariant calendar == CalendarOf(records[..i])
    {
      assert records[..i + 1][..i] == records[..i];
      assert CalendarOf(records[..i + 1]) == CalendarStep(CalendarOf(records[..i]), records[i]);
      var r := records[i];
      if r.kind == BreakKind {
        calendar := calendar[r.date := BreakKind];
      } else if r.kind == SignKind {
        if !(r.date in calendar && calendar[r.date] == BreakKind) {
          calendar := calendar[r.date := SignKind];
        }
      }
    }
  }

  /** The JSON body of a successful calendar request. */
  datatype CalendarView = CalendarView(
    records: seq<SignRecord>, calendar: map<string, string>,
    totalSign: nat, totalBreak: nat, currentStreak: nat)

  /**
   * `CalendarHandler`: 400 without an openid, 404 for an unknown user,
   * otherwise the statistics of the user's records. `rows` is the store's
   * answer to the date-ordered query: the user's rows, in the order the
   * store sorts them (equal dates in no order the handler controls).
   */
  method HandleCalendar(db: Database, openid: string, rows: seq<SignRecord>)
    returns (r: Result<CalendarView, Ledger.Reply>)
    requires openid in db.users ==> multiset(rows) == multiset(RecordsOf(db.signRecords, db.users[openid].id))
    ensures openid == "" ==> r == Err(Ledger.Reply(400, Ledger.OpenIdRequired))
    ensures openid != "" && openid !in db.users ==> r == Err(Ledger.Reply(404, Ledger.UserNotFound))
    ensures openid != "" && openid in db.users ==>
      r == Ok(CalendarView(rows, CalendarOf(rows), CountKind(rows, SignKind), CountKind(rows, BreakKind),
                           StreakAfter(rows).length))
  {
    if openid == "" {
      return Err(Ledger.Reply(400, Ledger.OpenIdRequired));
    }
    var user := FindUser(db.users, openid);
    if user.None? {
      return Err(Ledger.Reply(404, Ledger.UserNotFound));
    }
    var records := rows;
    var totalSign, totalBreak, streak, calendar := Stats(records);
    r := Ok(CalendarView(records, calendar, totalSign, totalBreak, streak));
  }

  /** The user's records once the sign deletion has run hold no sign row ... */
  lemma {:induction false} NoSignsAfterSignDelete(rs: seq<SignRecord>, uid: UserId)
    ensures CountKind(RecordsOf(RemoveSigns(rs, uid), uid), SignKind) == 0
    decreases |rs|
  {
    if rs != [] {
      var init, last := rs[..|rs| - 1], rs[|rs| - 1];
      NoSignsAfterSignDelete(init, uid);
      var kept := RemoveSigns(init, uid);
      if SurvivesSignDelete(last, uid) {
        assert RemoveSigns(rs, uid) == kept + [last];
        RecordsOfAppend(kept, last, uid);
        if last.userId == uid {
          assert RecordsOf(RemoveSigns(rs, uid), uid) == RecordsOf(kept, uid) + [last];
          CountKindAppend(RecordsOf(kept, uid), last, SignKind);
        } else {
          assert RecordsOf(RemoveSigns(rs, uid), uid) == RecordsOf(kept, uid);
        }
      } else {
        assert RemoveSigns(rs, uid) == kept;
      }
    }
  }

  /** ... and every break row of the user. */
  lemma {:induction false} BreaksSurviveSignDelete(rs: seq<SignRecord>, uid: UserId)
    ensures CountKind(RecordsOf(RemoveSigns(rs, uid), uid), BreakKind) == CountKind(RecordsOf(rs, uid), BreakKind)
    decreases |rs|
  {
    if rs != [] {
      var init, last := rs[..|rs| - 1], rs[|rs| - 1];
      BreaksSurviveSignDelete(init, uid);
      var kept := RemoveSigns(init, uid);
      if last.userId != uid {
        assert RecordsOf(rs, uid) == RecordsOf(init, uid);
        assert RemoveSigns(rs, uid) == kept + [last];
        RecordsOfAppend(kept, last, uid);
        assert RecordsOf(RemoveSigns(rs, uid), uid) == RecordsOf(kept, uid);
      } else {
        assert RecordsOf(rs, uid) == RecordsOf(init, uid) + [last];
        CountKindAppend(RecordsOf(init, uid), last, BreakKind);
        if SurvivesSignDelete(last, uid) {
          assert RemoveSigns(rs, uid) == kept + [last];
          RecordsOfAppend(kept, last, uid);
          assert RecordsOf(RemoveSigns(rs, uid), uid) == RecordsOf(kept, uid) + [last];
          CountKindAppend(RecordsOf(kept, uid), last, BreakKind);
        } else {
          assert RemoveSigns(rs, uid) == kept;
        }
      }
    }
  }

  /**
   * What the calendar shows right after a successful break: no signs, one
   * more break than before, a streak of 0 ending today, and today marked
   * as a break day.
   */
  lemma CalendarAfterBreak(rs: seq<SignRecord>, uid: UserId, today: string)
    ensures var mine := RecordsOf(RemoveSigns(rs, uid) + [SignRecord(uid, today, BreakKind)], uid);
      && CountKind(mine, SignKind) == 0
      && CountKind(mine, BreakKind) == CountKind(RecordsOf(rs, uid), BreakKind) + 1
      && StreakAfter(mine) == Streak(0, today)
      && today in CalendarOf(mine) && CalendarOf(mine)[today] == BreakKind
  {
    var b := SignRecord(uid, today, BreakKind);
    var kept := RecordsOf(RemoveSigns(rs, uid), uid);
    NoSignsAfterSignDelete(rs, uid);
    BreaksSurviveSignDelete(rs, uid);
    RecordsOfAppend(RemoveSigns(rs, uid), b, uid);
    assert (kept + [b])[..|kept|] == kept;
  }
}
