/**
 * WeChat subscription messages: the cached access token and the template
 * message senders.
 *
 * The two HTTP round trips are oracles. A token fetch ends in a transport,
 * read or parse failure, or in a decoded response; a message post likewise.
 * The clock is a parameter in whole seconds.
 */
module Notification {
  import opened Basics

  /** Seconds before expiry at which the cached token is refreshed. */
  const RefreshAhead: int := 300

  /** The decoded body of the token endpoint. */
  datatype TokenResponse = TokenResponse(accessToken: string, expiresIn: int, errCode: int, errMsg: string)

  /** How the token request ended. */
  datatype FetchOutcome = FetchTransportFailed | FetchReadFailed | FetchUnparsable | Fetched(response: TokenResponse)

  datatype TokenError = TransportError | ReadError | ParseError | ApiError(code: int, msg: string)

  /** The token request's result: the response, or the error `GetWxAccessToken` returns. */
  function FetchResult(fetch: FetchOutcome): (r: Result<TokenResponse, TokenError>)
    ensures r.Ok? <==> fetch.Fetched? && fetch.response.errCode == 0
    ensures r.Ok? ==> r.value == fetch.response
    ensures fetch.Fetched? && fetch.response.errCode != 0 ==>
      r == Err(ApiError(fetch.response.errCode, fetch.response.errMsg))
  {
    match fetch
    case FetchTransportFailed => Err(TransportError)
    case FetchReadFailed => Err(ReadError)
    case FetchUnparsable => Err(ParseError)
    case Fetched(resp) =>
      if resp.errCode != 0 then Err(ApiError(resp.errCode, resp.errMsg)) else Ok(resp)
  }

  /**
   * The token a lookup returns: the cached one when it is fresh, otherwise
   * the fetched one or the fetch's error.
   */
  function LookupResult(isFresh: bool, cached: string, fetch: FetchOutcome): (r: Result<string, TokenError>)
    ensures isFresh ==> r == Ok(cached)
    ensures !isFresh ==> (r.Ok? <==> FetchResult(fetch).Ok?)
    ensures !isFresh && r.Ok? ==> r.value == fetch.response.accessToken
    ensures !isFresh && r.Err? ==> r.error == FetchResult(fetch).error
  {
    if isFresh then Ok(cached)
    else match FetchResult(fetch)
      case Err(e) => Err(e)
      case Ok(resp) => Ok(resp.accessToken)
  }

  /** The contents of the token cache: the token, when it was fetched, and its lifetime. */
  datatype CacheState = CacheState(token: string, fetchedAt: int, expiresIn: int)

  /** The cached token may be used: it is set and `now` is before its refresh point. */
  predicate FreshState(c: CacheState, now: int) {
    c.token != "" && now < c.fetchedAt + (c.expiresIn - RefreshAhead)
  }

  /**
   * What a lookup at `now` does to the cache: nothing when the cached
   * token is fresh or the fetch fails, otherwise it stores the new token,
   * the time, and the new lifetime.
   */
  function LookupState(c: CacheState, now: int, fetch: FetchOutcome): (c': CacheState)
    ensures FreshState(c, now) || FetchResult(fetch).Err? ==> c' == c
    ensures !FreshState(c, now) && FetchResult(fetch).Ok? ==>
      c' == CacheState(fetch.response.accessToken, now, fetch.response.expiresIn)
  {
    if FreshState(c, now) then c
    else match FetchResult(fetch)
      case Err(_) => c
      case Ok(resp) => CacheState(resp.accessToken, now, resp.expiresIn)
  }

  /** The package-level cache `accessToken`, `accessTokenTime`, `tokenExpiresIn`. */
  class TokenCache {
    var accessToken: string
    var fetchedAt: int
    var expiresIn: int

    /** The zero values the package starts with. */
    constructor ()
      ensures accessToken == "" && fetchedAt == 0 && expiresIn == 0
    {
      accessToken, fetchedAt, expiresIn := "", 0, 0;
    }

    /** The three package variables as one value. */
    function State(): CacheState
      reads this
    {
      CacheState(accessToken, fetchedAt, expiresIn)
    }

    predicate Fresh(now: int)
      reads this
    {
      FreshState(State(), now)
    }

    /** The cache after a lookup at `now` is `LookupState` of the cache before it. */
    twostate predicate AfterLookup(now: int, fetch: FetchOutcome)
      reads this
    {
      State() == LookupState(old(State()), now, fetch)
    }

    /** `GetWxAccessToken`. */
    method GetAccessToken(now: int, fetch: FetchOutcome) returns (r: Result<string, TokenError>)
      modifies this
      ensures AfterLookup(now, fetch)
      ensures r == LookupResult(old(Fresh(now)), old(accessToken), fetch)
    {
      if Fresh(now) {
        return Ok(accessToken);
      }
      match fetch {
        case FetchTransportFailed =>
          return Err(TransportError);
        case FetchReadFailed =>
          return Err(ReadError);
        case FetchUnparsable =>
          return Err(ParseError);
        case Fetched(resp) =>
          if resp.errCode != 0 {
            return Err(ApiError(resp.errCode, resp.errMsg));
          }
          accessToken := resp.accessToken;
          fetchedAt := now;
          expiresIn := resp.expiresIn;
          r := Ok(accessToken);
      }
    }
  }

  /** A token fetched at `fetchedAt` with lifetime `expiresIn` is reused until 300 s before it lapses. */
  lemma FreshWindow(c: TokenCache, now: int)
    requires c.accessToken != ""
    ensures c.Fresh(now) <==> now - c.fetchedAt < c.expiresIn - RefreshAhead
  {
  }

  /** An empty token is never reused, so a lookup with it always fetches. */
  lemma EmptyTokenNeverFresh(c: TokenCache, now: int)
    requires c.accessToken == ""
    ensures !c.Fresh(now)
  {
  }

  // ---------------------------------------------------------------------
  // Template messages
  // ---------------------------------------------------------------------

  /** Message data: each key maps to `{"value": ...}`. */
  type TemplateData = map<string, map<string, string>>

  datatype TemplateMessage = TemplateMessage(toUser: string, templateId: string, page: string, data: TemplateData)

  /** How the send request ended. */
  datatype PostOutcome = PostTransportFailed | PostReadFailed | PostUnparsable | Answered(errCode: int, errMsg: string, msgId: int)

  datatype SendError = NoToken(cause: TokenError) | SendTransportError | SendReadError | SendParseError | Rejected(code: int, msg: string)

  /** The verdict on a send response: only `errcode == 0` is success. */
  function PostResult(post: PostOutcome): (r: Option<SendError>)
    ensures r.None? <==> post.Answered? && post.errCode == 0
    ensures post.Answered? && post.errCode != 0 ==> r == Some(Rejected(post.errCode, post.errMsg))
  {
    match post
    case PostTransportFailed => Some(SendTransportError)
    case PostReadFailed => Some(SendReadError)
    case PostUnparsable => Some(SendParseError)
    case Answered(code, msg, _) => if code != 0 then Some(Rejected(code, msg)) else None
  }

  /**
   * `SendTemplateMessage`: without a token nothing is sent and the token
   * error is returned; otherwise the message addressed to `openId` with the
   * configured template id, `page` and `data` is posted (`sent`), and the
   * response decides the result (`None` is success).
   */
  method SendTemplateMessage(cache: TokenCache, openId: string, page: string, data: TemplateData,
                             templateId: string, now: int, fetch: FetchOutcome, post: PostOutcome)
    returns (err: Option<SendError>, sent: Option<TemplateMessage>)
    modifies cache
    ensures cache.AfterLookup(now, fetch)
    ensures match LookupResult(old(cache.Fresh(now)), old(cache.accessToken), fetch)
      case Err(e) => err == Some(NoToken(e)) && sent == None
      case Ok(_) => sent == Some(TemplateMessage(openId, templateId, page, data)) && err == PostResult(post)
  {
    var token := cache.GetAccessToken(now, fetch);
    if token.Err? {
      return Some(NoToken(token.error)), None;
    }
    var message := TemplateMessage(openId, templateId, page, data);
    sent := Some(message);
    match post {
      case PostTransportFailed =>
        err := Some(SendTransportError);
      case PostReadFailed =>
        err := Some(SendReadError);
      case PostUnparsable =>
        err := Some(SendParseError);
      case Answered(code, msg, _) =>
        if code != 0 {
          err := Some(Rejected(code, msg));
        } else {
          err := None;
        }
    }
  }

  /** The page a reminder opens. */
  const ReminderPage: string := "pages/index/index"

  const ReminderTitle: string := "打卡提醒"
  const ReminderBody: string := "今日尚未打卡"
  const ReminderNote: string := "请及时完成今日打卡，以保持进度"

  /** The reminder's template data; `stamp` is the send time as "2006-01-02 15:04:05" text. */
  function ReminderData(stamp: string): TemplateData
  {
    map["thing1" := map["value" := ReminderTitle],
        "thing2" := map["value" := ReminderBody],
        "time3" := map["value" := stamp],
        "thing4" := map["value" := ReminderNote]]
  }

  /** The reminder fills exactly the template's four fields. */
  lemma ReminderDataKeys(stamp: string)
    ensures ReminderData(stamp).Keys == {"thing1", "thing2", "time3", "thing4"}
    ensures |ReminderData(stamp)| == 4
  {
    assert "thing1"[5] != "thing2"[5] && "thing1"[5] != "thing4"[5] && "thing2"[5] != "thing4"[5];
    assert "time3"[1] != "thing1"[1];
    var two := {"thing1", "thing2"};
    assert |two| == 2;
    var three := two + {"thing4"};
    assert |three| == 3;
    assert ReminderData(stamp).Keys == three + {"time3"};
  }

  /** Each field holds its text under "value"; the time field carries the stamp. */
  lemma ReminderDataValues(stamp: string)
    ensures ReminderData(stamp)["thing1"] == map["value" := ReminderTitle]
    ensures ReminderData(stamp)["thing2"] == map["value" := ReminderBody]
    ensures ReminderData(stamp)["time3"] == map["value" := stamp]
    ensures ReminderData(stamp)["thing4"] == map["value" := ReminderNote]
  {
  }

  /** `SendSignInReminder`: the reminder data, sent to the index page. */
  method SendSignInReminder(cache: TokenCache, openId: string, stamp: string, templateId: string,
                            now: int, fetch: FetchOutcome, post: PostOutcome)
    returns (err: Option<SendError>, sent: Option<TemplateMessage>)
    modifies cache
    ensures cache.AfterLookup(now, fetch)
    ensures match LookupResult(old(cache.Fresh(now)), old(cache.accessToken), fetch)
      case Err(e) => err == Some(NoToken(e)) && sent == None
      case Ok(_) => sent == Some(TemplateMessage(openId, templateId, ReminderPage, ReminderData(stamp)))
                    && err == PostResult(post)
  {
    err, sent := SendTemplateMessage(cache, openId, ReminderPage, ReminderData(stamp), templateId, now, fetch, post);
  }
}
