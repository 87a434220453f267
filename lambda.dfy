/** The request step of the webhook: classify the event, process the message, store the mode
    the engine returned and log the exchange. */
module Lambda {
  import opened Common
  import opened DynamoDB
  import opened OpenAI
  import opened Line

  /** The mode the error reply is sent under. */
  const DefaultModeCode: int := 0
  const NotMessageError: string := "Error: Event is not a message type."
  const NotTextError: string := "Error: Message is not a text type."

  // ---------------------------------------------------------------------------------------
  // Event classification

  /** The fields of the first webhook event that decide how it is handled. */
  datatype Event = Event(eventType: string, messageType: string, text: string)

  /** The error text of an event that is not a text message, `None` for a text message. */
  function ClassifyEvent(e: Event): (r: Option<string>)
    ensures r.None? <==> e.eventType == "message" && e.messageType == "text"
  {
    if e.eventType != "message" then Some(NotMessageError)
    else if e.messageType != "text" then Some(NotTextError)
    else None
  }

  /** Python's truth value of the `error_message` variable: a non-empty string. */
  predicate Truthy(errorMessage: Option<string>) {
    errorMessage.Some? && errorMessage.value != ""
  }

  /** The event type is tested first; every error text is truthy, so an event classified as
      an error always takes the error reply. */
  lemma ClassifyEventErrors(e: Event)
    ensures e.eventType != "message" ==> ClassifyEvent(e) == Some(NotMessageError)
    ensures e.eventType == "message" && e.messageType != "text" ==> ClassifyEvent(e) == Some(NotTextError)
    ensures ClassifyEvent(e).Some? ==> Truthy(ClassifyEvent(e))
  {
    assert |NotMessageError| > 0 && |NotTextError| > 0;
  }

  // ---------------------------------------------------------------------------------------
  // The request step

  /** What a request does to the store, and whether it ends normally or with an exception. */
  datatype RequestStep = RequestStep(result: Outcome<()>, world: World)

  /** `handle_user_message` on the abstract store: a truthy error is replied under the default
      mode and nothing else happens; otherwise the message is processed (an exception ends the
      request there), the returned mode is stored and one log entry is appended. */
  function RequestSpec(t: Wording, w: World, u: UserId, replyToken: string, userMessage: string,
                       errorMessage: Option<string>, now: int, service: Service): RequestStep
  {
    if Truthy(errorMessage) then RequestStep(Returned(()), Emit(w, replyToken, errorMessage.value, DefaultModeCode))
    else
      var p := ProcessSpec(t, w, u, replyToken, userMessage, now, service);
      match p.result
      case Raised(e) => RequestStep(Raised(e), p.world)
      case Returned(r) =>
        var w1 := p.world.(users := SetMode(p.world.users, u, r.modeCode, now));
        RequestStep(Returned(()), w1.(log := w1.log + [LogEntry(u, userMessage, r.aiResponse, r.modeCode, now + UtcOffset)]))
  }

  /** `handle_user_message`. */
  method HandleUserMessage(userMessage: string, replyToken: string, userId: UserId, errorMessage: Option<string>,
                           db: DynamoDbHandler, ai: OpenAiHandler, line: LineHandler, now: int)
    returns (r: Outcome<()>)
    requires line.db == db && line.ai == ai && ai.db == db
    modifies db, ai, line
    ensures RequestStep(r, line.Snapshot())
            == RequestSpec(line.wording, old(line.Snapshot()), userId, replyToken, userMessage, errorMessage, now, ai.service)
  {
    if errorMessage.Some? && errorMessage.value != "" {
      line.ReplyMessage(replyToken, errorMessage.value, DefaultModeCode);
      return Returned(());
    }
    var modeCode := db.GetModeCode(userId);
    var processed := line.ProcessUserMessage(userMessage, replyToken, userId, now);
    if processed.Raised? {
      return Raised(processed.message);
    }
    // The returned mode is an `int`, so the source's `is not None` test always holds.
    modeCode := processed.value.modeCode;
    db.UpdateModeCode(userId, modeCode, now);
    db.SaveLog(userId, userMessage, processed.value.aiResponse, modeCode, now);
    r := Returned(());
  }

  // ---------------------------------------------------------------------------------------
  // Properties of one request

  /** An event that is not a text message gets its error text as the reply, with the quick
      replies of the default mode, and leaves the tables and the completion calls untouched. */
  lemma RejectedEventSpec(t: Wording, w: World, u: UserId, replyToken: string, e: Event, now: int, service: Service)
    requires ClassifyEvent(e).Some?
    ensures var s := RequestSpec(t, w, u, replyToken, e.text, ClassifyEvent(e), now, service);
            && s.result.Returned?
            && s.world.users == w.users && s.world.log == w.log && s.world.calls == w.calls
            && s.world.sent == w.sent + [Reply(replyToken, ClassifyEvent(e).value, DefaultModeCode, QuickReplyItems(DefaultModeCode))]
  {
    ClassifyEventErrors(e);
  }

  /** A text message that is processed without an exception leaves exactly one new log entry,
      for `u` and its text, holding the text that was replied and the mode the engine returned,
      which is also the mode then stored; a message whose processing raised logs nothing. */
  lemma RequestLogsOnce(t: Wording, w: World, u: UserId, replyToken: string, userMessage: string, now: int,
                        service: Service)
    ensures var s := RequestSpec(t, w, u, replyToken, userMessage, None, now, service);
            var mode := Decide(ModeOf(w.users, u), userMessage).mode;
            && (s.result.Raised? ==> s.world.log == w.log)
            && (s.result.Returned? ==>
                  && |s.world.log| == |w.log| + 1 && s.world.log[..|w.log|] == w.log
                  && |s.world.sent| == |w.sent| + 1
                  && s.world.log[|w.log|]
                       == LogEntry(u, userMessage, s.world.sent[|w.sent|].text, mode, now + UtcOffset)
                  && ModeOf(s.world.users, u) == mode)
  {
    var p := ProcessSpec(t, w, u, replyToken, userMessage, now, service);
    ProcessStoresMode(t, w, u, replyToken, userMessage, now, service);
    var d := Decide(ModeOf(w.users, u), userMessage);
    if d.action.Announce? {
      AnnounceSpec(t, w, u, replyToken, d, now, service);
    } else {
      CompleteSpec(t, w, u, replyToken, d, now, service);
    }
    if p.result.Returned? {
      assert |p.world.sent| == |w.sent| + 1;
      assert p.world.sent[|w.sent|].text == p.result.value.aiResponse;
    }
  }

  /** A request keeps the user table within quota, charges `u` today exactly the completion
      calls it made (none or one, appended to the trace), and leaves every other user's units
      as they were. */
  lemma RequestUsageAccounting(t: Wording, w: World, u: UserId, replyToken: string, userMessage: string,
                               errorMessage: Option<string>, now: int, service: Service, v: UserId, day: int)
    requires WithinQuota(w.users)
    ensures var s := RequestSpec(t, w, u, replyToken, userMessage, errorMessage, now, service);
            && WithinQuota(s.world.users)
            && |w.calls| <= |s.world.calls| <= |w.calls| + 1
            && s.world.calls[..|w.calls|] == w.calls
            && EffectiveCount(s.world.users, u, UsageDay(now))
                 == EffectiveCount(w.users, u, UsageDay(now)) + (|s.world.calls| - |w.calls|)
            && (v != u ==> EffectiveCount(s.world.users, v, day) == EffectiveCount(w.users, v, day))
  {
    if !Truthy(errorMessage) {
      var p := ProcessSpec(t, w, u, replyToken, userMessage, now, service);
      ProcessUsageAccounting(t, w, u, replyToken, userMessage, now, service, v, day);
      if p.result.Returned? {
        SetModeKeepsCounts(p.world.users, u, p.result.value.modeCode, now, day);
        SetModeKeepsCounts(p.world.users, u, p.result.value.modeCode, now, UsageDay(now));
      }
    }
  }

  // ---------------------------------------------------------------------------------------
  // A day of conversation turns

  /** A service that answers every request with status 200. */
  ghost predicate Healthy(service: Service) {
    forall n, messages :: service(n, messages).statusCode == 200
  }

  /** One incoming text message of `u`. */
  datatype Request = Request(replyToken: string, text: string, now: int)

  /** Requests handled one after the other by `step`, stopping at the first exception. */
  function RunWith(step: (World, Request) -> RequestStep, w: World, rs: seq<Request>): RequestStep
    decreases |rs|
  {
    if rs == [] then RequestStep(Returned(()), w)
    else
      var s := step(w, rs[0]);
      if s.result.Raised? then s else RunWith(step, s.world, rs[1..])
  }

  /** The request step for text messages of `u`. */
  function TextStep(t: Wording, u: UserId, service: Service): (World, Request) -> RequestStep {
    (w: World, r: Request) => RequestSpec(t, w, u, r.replyToken, r.text, None, r.now, service)
  }

  /** Text messages of `u` handled one after the other, stopping at the first exception. */
  function RunRequests(t: Wording, w: World, u: UserId, rs: seq<Request>, service: Service): RequestStep {
    RunWith(TextStep(t, u, service), w, rs)
  }

  /** How a conversation turn `r` of `u` from `w` to `s` is accounted: it ends normally and
      keeps the table within quota, and `u`'s units of today grow by one exactly when one
      remained. */
  ghost predicate TurnCharged(s: RequestStep, w: World, u: UserId, r: Request) {
    var spent := EffectiveCount(w.users, u, UsageDay(r.now));
    && s.result.Returned?
    && WithinQuota(s.world.users)
    && EffectiveCount(s.world.users, u, UsageDay(r.now)) == spent + (if spent < DailyLimit then 1 else 0)
  }

  /** The calls of such a turn: one completion call, charged to `u` today, exactly when a unit
      of today's quota remained. */
  ghost predicate TurnCalls(s: RequestStep, w: World, u: UserId, r: Request) {
    var made := if EffectiveCount(w.users, u, UsageDay(r.now)) < DailyLimit then 1 else 0;
    && |s.world.calls| == |w.calls| + made && s.world.calls[..|w.calls|] == w.calls
    && ChargedFrom(s.world.calls, |w.calls|, u, UsageDay(r.now))
  }

  /** The log of such a turn: one entry for its text, with the quota text as the response when
      no unit of today's quota remained. */
  ghost predicate TurnLogged(s: RequestStep, w: World, u: UserId, r: Request) {
    && |s.world.log| == |w.log| + 1 && s.world.log[..|w.log|] == w.log
    && s.world.log[|w.log|].userId == u && s.world.log[|w.log|].userMessage == r.text
    && (EffectiveCount(w.users, u, UsageDay(r.now)) >= DailyLimit ==> s.world.log[|w.log|].aiResponse == QuotaMessage)
  }

  /** Every log entry from index `from` on holds the quota text as its response. */
  ghost predicate QuotaAnsweredFrom(log: seq<LogEntry>, from: int) {
    forall j :: 0 <= from <= j < |log| ==> log[j].aiResponse == QuotaMessage
  }

  /** One conversation turn against a healthy service ends normally, is charged, calls and is
      logged as `TurnCharged`, `TurnCalls` and `TurnLogged` say. */
  lemma ChatRequestStep(t: Wording, w: World, u: UserId, r: Request, service: Service)
    requires WithinQuota(w.users) && Healthy(service) && IsChatText(r.text)
    ensures var s := RequestSpec(t, w, u, r.replyToken, r.text, None, r.now, service);
            TurnCharged(s, w, u, r) && TurnCalls(s, w, u, r) && TurnLogged(s, w, u, r)
  {
    var today := UsageDay(r.now);
    var p := ProcessSpec(t, w, u, r.replyToken, r.text, r.now, service);
    ChatSpec(t, w, u, r.replyToken, r.text, r.now, service);
    ChatGate(t, w, u, r.replyToken, r.text, r.now, service);
    ProcessChargesCaller(t, w, u, r.replyToken, r.text, r.now, service);
    ProcessUsageAccounting(t, w, u, r.replyToken, r.text, r.now, service, u, today);
    assert EffectiveCount(w.users, u, today) <= DailyLimit;
    assert p.result.Returned?;
    SetModeKeepsCounts(p.world.users, u, p.result.value.modeCode, r.now, today);
  }

  lemma ChargedFromExtend(a: seq<CompletionCall>, b: seq<CompletionCall>, from: int, u: UserId, day: int)
    requires 0 <= from <= |a| <= |b| && b[..|a|] == a
    requires ChargedFrom(a, from, u, day) && ChargedFrom(b, |a|, u, day)
    ensures ChargedFrom(b, from, u, day)
  {
    forall j | from <= j < |a|
      ensures b[j].userId == u && b[j].usageDay == day
    {
      assert b[j] == b[..|a|][j];
    }
  }

  lemma QuotaAnsweredExtend(a: seq<LogEntry>, b: seq<LogEntry>, from: int)
    requires 0 <= from <= |a| <= |b| && b[..|a|] == a
    requires QuotaAnsweredFrom(a, from) && QuotaAnsweredFrom(b, |a|)
    ensures QuotaAnsweredFrom(b, from)
  {
    forall j | from <= j < |a|
      ensures b[j].aiResponse == QuotaMessage
    {
      assert b[j] == b[..|a|][j];
    }
  }

  lemma PrefixTrans<T>(a: seq<T>, b: seq<T>, c: seq<T>)
    requires |a| <= |b| <= |c| && b[..|a|] == a && c[..|b|] == b
    ensures c[..|a|] == a
  {
    assert c[..|a|] == c[..|b|][..|a|];
  }

  /** What a day of turns adds up to in completion calls and units, for any step that
      accounts each turn as `TurnCharged` and `TurnCalls` say: see `DailyCap`. */
  lemma {:induction false} DailyCallsWith(step: (World, Request) -> RequestStep, w: World, u: UserId,
                                          rs: seq<Request>, day: int)
    requires WithinQuota(w.users)
    requires forall r :: r in rs ==> UsageDay(r.now) == day
    requires forall v: World, r :: r in rs && WithinQuota(v.users) ==> TurnCharged(step(v, r), v, u, r)
    requires forall v: World, r :: r in rs && WithinQuota(v.users) ==> TurnCalls(step(v, r), v, u, r)
    ensures var s := RunWith(step, w, rs);
            var spent := EffectiveCount(w.users, u, day);
            var made := if |rs| <= DailyLimit - spent then |rs| else DailyLimit - spent;
            && s.result.Returned?
            && WithinQuota(s.world.users)
            && |s.world.calls| == |w.calls| + made && s.world.calls[..|w.calls|] == w.calls
            && ChargedFrom(s.world.calls, |w.calls|, u, day)
            && EffectiveCount(s.world.users, u, day) == spent + made
    decreases |rs|
  {
    if rs != [] {
      var s1 := step(w, rs[0]);
      assert TurnCharged(s1, w, u, rs[0]) && TurnCalls(s1, w, u, rs[0]);
      var rest := rs[1..];
      assert forall r :: r in rest ==> r in rs;
      DailyCallsWith(step, s1.world, u, rest, day);
      var s := RunWith(step, s1.world, rest);
      assert RunWith(step, w, rs) == s;
      PrefixTrans(w.calls, s1.world.calls, s.world.calls);
      ChargedFromExtend(s1.world.calls, s.world.calls, |w.calls|, u, day);
    }
  }

  /** What a day of turns adds up to in the log, for any step that accounts each turn as
      `TurnCharged` and `TurnLogged` say: see `DailyCap`. */
  lemma {:induction false} DailyLogWith(step: (World, Request) -> RequestStep, w: World, u: UserId,
                                        rs: seq<Request>, day: int)
    requires WithinQuota(w.users)
    requires forall r :: r in rs ==> UsageDay(r.now) == day
    requires forall v: World, r :: r in rs && WithinQuota(v.users) ==> TurnCharged(step(v, r), v, u, r)
    requires forall v: World, r :: r in rs && WithinQuota(v.users) ==> TurnLogged(step(v, r), v, u, r)
    ensures var s := RunWith(step, w, rs);
            var spent := EffectiveCount(w.users, u, day);
            var made := if |rs| <= DailyLimit - spent then |rs| else DailyLimit - spent;
            && s.result.Returned?
            && WithinQuota(s.world.users)
            && EffectiveCount(s.world.users, u, day) == spent + made
            && |s.world.log| == |w.log| + |rs| && s.world.log[..|w.log|] == w.log
            && QuotaAnsweredFrom(s.world.log, |w.log| + made)
    decreases |rs|
  {
    if rs != [] {
      var s1 := step(w, rs[0]);
      assert TurnCharged(s1, w, u, rs[0]) && TurnLogged(s1, w, u, rs[0]);
      var rest := rs[1..];
      assert forall r :: r in rest ==> r in rs;
      DailyLogWith(step, s1.world, u, rest, day);
      var s := RunWith(step, s1.world, rest);
      assert RunWith(step, w, rs) == s;
      var n := |w.log|;
      PrefixTrans(w.log, s1.world.log, s.world.log);
      if EffectiveCount(w.users, u, day) >= DailyLimit {
        QuotaAnsweredExtend(s1.world.log, s.world.log, n);
      }
    }
  }

  /** The daily cap end to end: conversation turns of `u` within one usage day, against a
      healthy service, all end normally and are all logged; the first 6 - c of them
      make a completion call each, charged to `u` that day (c being the units already spent
      that day), every later one makes none and is answered with the quota text, and `u` has
      then spent c plus the calls made. */
  lemma DailyCap(t: Wording, w: World, u: UserId, rs: seq<Request>, service: Service, day: int)
    requires WithinQuota(w.users) && Healthy(service)
    requires forall r :: r in rs ==> IsChatText(r.text) && UsageDay(r.now) == day
    ensures var s := RunRequests(t, w, u, rs, service);
            var spent := EffectiveCount(w.users, u, day);
            var made := if |rs| <= DailyLimit - spent then |rs| else DailyLimit - spent;
            && s.result.Returned?
            && WithinQuota(s.world.users)
            && |s.world.calls| == |w.calls| + made && s.world.calls[..|w.calls|] == w.calls
            && ChargedFrom(s.world.calls, |w.calls|, u, day)
            && EffectiveCount(s.world.users, u, day) == spent + made
            && |s.world.log| == |w.log| + |rs| && s.world.log[..|w.log|] == w.log
            && QuotaAnsweredFrom(s.world.log, |w.log| + made)
  {
    var step := TextStep(t, u, service);
    forall v: World, r | r in rs && WithinQuota(v.users)
      ensures TurnCharged(step(v, r), v, u, r) && TurnCalls(step(v, r), v, u, r) && TurnLogged(step(v, r), v, u, r)
    {
      ChatRequestStep(t, v, u, r, service);
    }
    DailyCallsWith(step, w, u, rs, day);
    DailyLogWith(step, w, u, rs, day);
  }

  // ---------------------------------------------------------------------------------------
  // Any sequence of requests

  /** Every completion call a request makes is charged to its user and its usage day. */
  lemma RequestChargesCaller(t: Wording, w: World, u: UserId, replyToken: string, userMessage: string,
                             errorMessage: Option<string>, now: int, service: Service)
    ensures ChargedFrom(RequestSpec(t, w, u, replyToken, userMessage, errorMessage, now, service).world.calls,
                        |w.calls|, u, UsageDay(now))
  {
    if !Truthy(errorMessage) {
      ProcessChargesCaller(t, w, u, replyToken, userMessage, now, service);
    }
  }

  /** One webhook invocation: the user, reply token, text and error text of its event, and the
      instant it is handled. */
  datatype Incoming = Incoming(userId: UserId, replyToken: string, userMessage: string,
                               errorMessage: Option<string>, now: int)

  /** The request step of one invocation. */
  function Deliver(t: Wording, w: World, r: Incoming, service: Service): RequestStep {
    RequestSpec(t, w, r.userId, r.replyToken, r.userMessage, r.errorMessage, r.now, service)
  }

  /** Independent invocations handled one after the other: each starts from the store the
      previous one left, whether that one ended normally or raised. */
  function Serve(t: Wording, w: World, rs: seq<Incoming>, service: Service): World
    decreases |rs|
  {
    if rs == [] then w else Serve(t, Deliver(t, w, rs[0], service).world, rs[1..], service)
  }

  /** The number of calls of the trace charged to `u` in usage day `day`. */
  function ChargedCount(calls: seq<CompletionCall>, u: UserId, day: int): (n: nat)
    ensures n <= |calls|
  {
    if calls == [] then 0
    else
      var last := calls[|calls| - 1];
      ChargedCount(calls[..|calls| - 1], u, day) + (if last.userId == u && last.usageDay == day then 1 else 0)
  }

  /** The bookkeeping of one step on plain values: a trace that grew by the calls charged to
      `ru` in `day`, and a table whose units of `ru` that day grew by as many. */
  lemma StepCharges(calls: seq<CompletionCall>, calls': seq<CompletionCall>, users: Users, users': Users,
                    ru: UserId, v: UserId, day: int)
    requires |calls| <= |calls'| <= |calls| + 1 && calls'[..|calls|] == calls
    requires ChargedFrom(calls', |calls|, ru, day)
    requires EffectiveCount(users', ru, day) == EffectiveCount(users, ru, day) + (|calls'| - |calls|)
    requires v != ru ==> EffectiveCount(users', v, day) == EffectiveCount(users, v, day)
    ensures var made := if v == ru then |calls'| - |calls| else 0;
            && ChargedCount(calls', v, day) == ChargedCount(calls, v, day) + made
            && EffectiveCount(users', v, day) == EffectiveCount(users, v, day) + made
  {
    if |calls'| == |calls| {
      assert calls' == calls;
    } else {
      assert calls'[..|calls'| - 1] == calls;
    }
  }

  /** One invocation adds to the calls charged to `v` in day `day` exactly the calls it made
      when it is `v`'s request of that day, and none otherwise; and `v`'s units of that day
      grow by the same number. */
  lemma DeliverCharges(t: Wording, w: World, r: Incoming, service: Service, v: UserId, day: int)
    requires WithinQuota(w.users) && UsageDay(r.now) == day
    ensures var s := Deliver(t, w, r, service).world;
            var made := if v == r.userId then |s.calls| - |w.calls| else 0;
            && WithinQuota(s.users)
            && ChargedCount(s.calls, v, day) == ChargedCount(w.calls, v, day) + made
            && EffectiveCount(s.users, v, day) == EffectiveCount(w.users, v, day) + made
  {
    var s := Deliver(t, w, r, service).world;
    RequestUsageAccounting(t, w, r.userId, r.replyToken, r.userMessage, r.errorMessage, r.now, service, v, day);
    RequestChargesCaller(t, w, r.userId, r.replyToken, r.userMessage, r.errorMessage, r.now, service);
    StepCharges(w.calls, s.calls, w.users, s.users, r.userId, v, day);
  }

  /** The daily cap over any day of invocations: whatever users send, whatever texts and error
      texts they carry and whatever the service answers, as long as every invocation falls in
      usage day `day` the completion calls charged to `u` that day grow by exactly the units `u`
      spent that day, so by at most 6 less the units already spent; and the user table stays
      within quota. */
  lemma {:induction false} DailyCallBound(t: Wording, w: World, rs: seq<Incoming>, service: Service, u: UserId, day: int)
    requires WithinQuota(w.users)
    requires forall r :: r in rs ==> UsageDay(r.now) == day
    ensures var s := Serve(t, w, rs, service);
            && WithinQuota(s.users)
            && ChargedCount(s.calls, u, day) - ChargedCount(w.calls, u, day)
                 == EffectiveCount(s.users, u, day) - EffectiveCount(w.users, u, day)
            && ChargedCount(s.calls, u, day) - ChargedCount(w.calls, u, day)
                 <= DailyLimit - EffectiveCount(w.users, u, day)
    decreases |rs|
  {
    if rs != [] {
      var w1 := Deliver(t, w, rs[0], service).world;
      DeliverCharges(t, w, rs[0], service, u, day);
      assert forall r :: r in rs[1..] ==> r in rs;
      DailyCallBound(t, w1, rs[1..], service, u, day);
    }
  }
}
