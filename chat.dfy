/**
 * `/api/chat`: admission checks, storage of the user's message, the
 * conversation context handed to the language model, and storage of the
 * reply.
 *
 * The model is an oracle `model(context, content)`: `Some(reply)` for a
 * completion, `None` for an error. The conversation chain and its window
 * buffer are not part of this model.
 */
module Chat {
  import opened Basics
  import opened Store
  import opened Text
  import Ledger

  /** `MaxTokenPerMsg`: the longest accepted message, in code points. */
  const MaxRunesPerMsg: nat := 500

  /** `common.RolePrompt`, sent as the first user turn of every conversation. */
  const RolePrompt: string := "你是一位成瘾治疗心理医生，主要治疗用户性成瘾的问题，包括自慰、看黄等问题；请根据用户的输入给用户建议与帮助，帮助用户逐步戒掉性成瘾的问题。"

  const ContentRequired: string := "openid and content required"
  const DailyLimitReached: string := "今日已达上限"
  const MessageTooLong: string := "消息过长"
  const SensitiveContent: string := "消息包含敏感内容"
  const ModelFailed: string := "AI error"

  /** The banned-word rule: "openai" in any letter case, or "system" exactly as written. */
  predicate Banned(content: string) {
    Contains(Lower(content), "openai") || Contains(content, "system")
  }

  /** The banned-word rule in terms of occurrences. */
  lemma BannedMeaning(content: string)
    ensures Banned(content) <==>
      (exists i: nat :: OccursAt(Lower(content), "openai", i)) || (exists i: nat :: OccursAt(content, "system", i))
  {
    ContainsIff(Lower(content), "openai");
    ContainsIff(content, "system");
  }

  /**
   * The checks after the user lookup, in the handler's order: the daily
   * limit, then the length, then the banned words. `None` admits the
   * message; `Some(text)` is the 400 error text.
   */
  function Screen(sentToday: nat, content: string): (r: Option<string>)
    ensures r == Some(DailyLimitReached) <==> sentToday >= MaxChatPerDay
    ensures r == Some(MessageTooLong) <==> sentToday < MaxChatPerDay && |content| > MaxRunesPerMsg
    ensures r == Some(SensitiveContent) <==>
      sentToday < MaxChatPerDay && |content| <= MaxRunesPerMsg && Banned(content)
    ensures r == None <==> sentToday < MaxChatPerDay && |content| <= MaxRunesPerMsg && !Banned(content)
  {
    if sentToday >= MaxChatPerDay then Some(DailyLimitReached)
    else if |content| > MaxRunesPerMsg then Some(MessageTooLong)
    else if Banned(content) then Some(SensitiveContent)
    else None
  }

  /** A message of the conversation memory. */
  datatype Turn = UserTurn(text: string) | ModelTurn(text: string)

  function TurnOf(c: ChatRecord): Turn {
    if c.isUser then UserTurn(c.content) else ModelTurn(c.content)
  }

  /** The role prompt, then the stored history in creation order. */
  function ContextOf(history: seq<ChatRecord>): (ctx: seq<Turn>)
    ensures |ctx| == |history| + 1 && ctx[0] == UserTurn(RolePrompt)
    ensures forall i :: 0 <= i < |history| ==> ctx[i + 1] == TurnOf(history[i])
  {
    [UserTurn(RolePrompt)] + seq(|history|, i requires 0 <= i < |history| => TurnOf(history[i]))
  }

  /** The loop that fills the conversation memory. */
  method BuildContext(history: seq<ChatRecord>) returns (ctx: seq<Turn>)
    ensures ctx == ContextOf(history)
  {
    ctx := [UserTurn(RolePrompt)];
    for i := 0 to |history|
      invariant |ctx| == i + 1 && ctx[0] == UserTurn(RolePrompt)
      invariant forall j :: 0 <= j < i ==> ctx[j + 1] == TurnOf(history[j])
    {
      if history[i].isUser {
        ctx := ctx + [UserTurn(history[i].content)];
      } else {
        ctx := ctx + [ModelTurn(history[i].content)];
      }
    }
  }

  /**
   * The message just stored is the last turn of the context, right after
   * the user's earlier history.
   */
  lemma {:induction false} ContextEndsWithRequest(cs: seq<ChatRecord>, asked: ChatRecord)
    requires asked.isUser
    ensures var ctx := ContextOf(HistoryOf(cs + [asked], asked.userId));
      && ctx == ContextOf(HistoryOf(cs, asked.userId)) + [UserTurn(asked.content)]
      && ctx[|ctx| - 1] == UserTurn(asked.content)
  {
    HistoryAppend(cs, asked);
    var h := HistoryOf(cs, asked.userId);
    assert ContextOf(h + [asked]) == ContextOf(h) + [UserTurn(asked.content)];
  }

  /** Storing an admitted message and a model reply keeps every user within the daily limit. */
  lemma {:induction false} AdmittedKeepsDailyLimit(cs: seq<ChatRecord>, asked: ChatRecord, answers: seq<ChatRecord>)
    requires WithinDailyLimit(cs)
    requires asked.isUser && UserMessagesOn(cs, asked.userId, asked.day) < MaxChatPerDay
    requires forall a :: a in answers ==> !a.isUser
    ensures WithinDailyLimit(cs + [asked] + answers)
    decreases |answers|
  {
    if answers == [] {
      assert cs + [asked] + answers == cs + [asked];
      forall u: UserId, d: string ensures UserMessagesOn(cs + [asked], u, d) <= MaxChatPerDay {
        UserMessagesAppend(cs, asked, u, d);
      }
    } else {
      var init, last := answers[..|answers| - 1], answers[|answers| - 1];
      AdmittedKeepsDailyLimit(cs, asked, init);
      assert cs + [asked] + answers == (cs + [asked] + init) + [last];
      forall u: UserId, d: string ensures UserMessagesOn(cs + [asked] + answers, u, d) <= MaxChatPerDay {
        UserMessagesAppend(cs + [asked] + init, last, u, d);
      }
    }
  }

  /**
   * `ChatHandler`. An admitted message is stored before the model is asked;
   * the model sees the role prompt and the user's whole history, which ends
   * with that message; a reply is stored after it. No stored row gets a
   * message id.
   */
  method HandleChat(db: Database, openid: string, nickname: string, content: string, today: string,
                    userInsertOk: bool, model: (seq<Turn>, string) -> Option<string>)
    returns (reply: Ledger.Reply)
    requires db.Valid()
    modifies db
    ensures db.Valid()
    ensures db.signRecords == old(db.signRecords) && db.subscriptions == old(db.subscriptions)
    ensures openid == "" || content == "" ==>
      && reply == Ledger.Reply(400, ContentRequired) && db.chatRecords == old(db.chatRecords)
      && db.users == old(db.users) && db.nextUserId == old(db.nextUserId)
    ensures openid != "" && content != "" ==> Ledger.ResolvesUser(db, openid, nickname, userInsertOk)
    ensures openid != "" && content != "" && openid !in db.users ==>
      reply == Ledger.Reply(500, Ledger.UserLookupFailed) && db.chatRecords == old(db.chatRecords)
    ensures openid != "" && content != "" && openid in db.users ==>
      var uid := db.users[openid].id;
      match Screen(UserMessagesOn(old(db.chatRecords), uid, today), content)
      case Some(refusal) =>
        reply == Ledger.Reply(400, refusal) && db.chatRecords == old(db.chatRecords)
      case None =>
        var asked := ChatRecord(uid, content, true, today, "");
        var ctx := ContextOf(HistoryOf(old(db.chatRecords) + [asked], uid));
        match model(ctx, content)
        case None =>
          reply == Ledger.Reply(500, ModelFailed) && db.chatRecords == old(db.chatRecords) + [asked]
        case Some(answer) =>
          reply == Ledger.Reply(200, answer)
          && db.chatRecords == old(db.chatRecords) + [asked, ChatRecord(uid, answer, false, today, "")]
  {
    if openid == "" || content == "" {
      return Ledger.Reply(400, ContentRequired);
    }
    var user := Ledger.GetOrCreateUser(db, openid, nickname, userInsertOk);
    if user.None? {
      return Ledger.Reply(500, Ledger.UserLookupFailed);
    }
    var uid := user.value.id;
    var count := UserMessagesOn(db.chatRecords, uid, today);
    var refusal := Screen(count, content);
    if refusal.Some? {
      return Ledger.Reply(400, refusal.value);
    }
    ghost var before := db.chatRecords;
    var asked := ChatRecord(uid, content, true, today, "");
    AdmittedKeepsDailyLimit(before, asked, []);
    assert before + [asked] + [] == before + [asked];
    db.chatRecords := db.chatRecords + [asked];
    var history := HistoryOf(db.chatRecords, uid);
    var ctx := BuildContext(history);
    var answer := model(ctx, content);
    if answer.None? {
      return Ledger.Reply(500, ModelFailed);
    }
    var stored := ChatRecord(uid, answer.value, false, today, "");
    AdmittedKeepsDailyLimit(before, asked, [stored]);
    assert before + [asked] + [stored] == before + [asked, stored];
    db.chatRecords := db.chatRecords + [stored];
    reply := Ledger.Reply(200, answer.value);
  }

  /**
   * `ChatHistoryHandler`: 400 without an openid, 404 for an unknown user,
   * otherwise every chat row of that user, in the order they were stored.
   * Looking the history up never creates a user.
   */
  method HandleHistory(db: Database, openid: string) returns (r: Result<seq<ChatRecord>, Ledger.Reply>)
    ensures openid == "" ==> r == Err(Ledger.Reply(400, Ledger.OpenIdRequired))
    ensures openid != "" && openid !in db.users ==> r == Err(Ledger.Reply(404, Ledger.UserNotFound))
    ensures openid != "" && openid in db.users ==> r == Ok(HistoryOf(db.chatRecords, db.users[openid].id))
  {
    if openid == "" {
      return Err(Ledger.Reply(400, Ledger.OpenIdRequired));
    }
    var user := FindUser(db.users, openid);
    if user.None? {
      return Err(Ledger.Reply(404, Ledger.UserNotFound));
    }
    r := Ok(HistoryOf(db.chatRecords, user.value.id));
  }
}
