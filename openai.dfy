/** Completion gating: one quota unit is charged before any request, the request's message
    list is assembled, and the (abstract) chat-completion endpoint is called. */
module OpenAI {
  import opened Common
  import opened DynamoDB

  /** The fixed system preamble that opens every message list. */
  const SystemPreamble: string := "あなたは英会話をサポートするアシスタントです。"
  const FailurePrefix: string := "Failed to get a response from OpenAI: "

  /** What the endpoint answers: the HTTP status, the raw body text, and the content of the
      first choice's message. */
  datatype HttpResponse = HttpResponse(statusCode: int, text: string, content: string)

  /** The endpoint as an oracle: the answer to the n-th request of the run, given its
      message list. */
  type Service = (nat, seq<ChatMessage>) -> HttpResponse

  /** One POST to the completion endpoint, with the user and usage day it was charged to. */
  datatype CompletionCall = CompletionCall(userId: UserId, usageDay: int, messages: seq<ChatMessage>)

  /** Every call of the trace from index `from` on is charged to `u` in usage day `day`. */
  ghost predicate ChargedFrom(calls: seq<CompletionCall>, from: int, u: UserId, day: int) {
    forall j :: 0 <= from <= j < |calls| ==> calls[j].userId == u && calls[j].usageDay == day
  }


  /** The request's message list: the system preamble, the history, the user prompt. */
  function BuildMessages(prompt: Option<string>, history: seq<ChatMessage>): (r: seq<ChatMessage>)
    ensures |r| == |history| + 2
    ensures r[0] == ChatMessage(System, Some(SystemPreamble))
    ensures r[1..|r| - 1] == history
    ensures r[|r| - 1] == ChatMessage(User, prompt)
  {
    [ChatMessage(System, Some(SystemPreamble))] + history + [ChatMessage(User, prompt)]
  }

  // ---------------------------------------------------------------------------------------
  // str.strip()

  /** Python's `str.isspace` for one character. */
  predicate IsSpace(c: char) {
    || '\t' <= c <= '\r'
    || '\U{1C}' <= c <= ' '
    || c == '\U{85}' || c == '\U{A0}' || c == '\U{1680}'
    || '\U{2000}' <= c <= '\U{200A}'
    || c == '\U{2028}' || c == '\U{2029}' || c == '\U{202F}' || c == '\U{205F}' || c == '\U{3000}'
  }

  function StripLeft(s: string): string
    decreases |s|
  {
    if |s| > 0 && IsSpace(s[0]) then StripLeft(s[1..]) else s
  }

  function StripRight(s: string): string
    decreases |s|
  {
    if |s| > 0 && IsSpace(s[|s| - 1]) then StripRight(s[..|s| - 1]) else s
  }

  /** Python's `s.strip()`. */
  function Strip(s: string): string {
    StripRight(StripLeft(s))
  }

  lemma {:induction false} StripLeftSpec(s: string)
    ensures var r := StripLeft(s);
            && |r| <= |s| && r == s[|s| - |r|..]
            && (forall k :: 0 <= k < |s| - |r| ==> IsSpace(s[k]))
            && (r != [] ==> !IsSpace(r[0]))
    decreases |s|
  {
    if |s| > 0 && IsSpace(s[0]) {
      StripLeftSpec(s[1..]);
      var r := StripLeft(s);
      forall k | 0 <= k < |s| - |r|
        ensures IsSpace(s[k])
      {
        if k > 0 {
          assert s[k] == s[1..][k - 1];
        }
      }
    }
  }

  lemma {:induction false} StripRightSpec(s: string)
    ensures var r := StripRight(s);
            && |r| <= |s| && r == s[..|r|]
            && (forall k :: |r| <= k < |s| ==> IsSpace(s[k]))
            && (r != [] ==> !IsSpace(r[|r| - 1]))
    decreases |s|
  {
    if |s| > 0 && IsSpace(s[|s| - 1]) {
      StripRightSpec(s[..|s| - 1]);
      var r := StripRight(s);
      forall k | |r| <= k < |s|
        ensures IsSpace(s[k])
      {
        if k < |s| - 1 {
          assert s[k] == s[..|s| - 1][k];
        }
      }
    }
  }

  /** `r` is `s` with the surrounding whitespace cut off, `r` starting at index `i` of `s`. */
  ghost predicate TrimmedAt(s: string, r: string, i: int) {
    && 0 <= i <= |s| - |r| && r == s[i..i + |r|]
    && (forall k :: 0 <= k < i ==> IsSpace(s[k]))
    && (forall k :: i + |r| <= k < |s| ==> IsSpace(s[k]))
    && (r != [] ==> !IsSpace(r[0]) && !IsSpace(r[|r| - 1]))
  }

  /** `strip()` removes exactly the surrounding whitespace: the result is a contiguous part of
      the input, everything around it is whitespace, and it neither starts nor ends with
      whitespace. */
  lemma StripSpec(s: string)
    ensures exists i :: TrimmedAt(s, Strip(s), i)
  {
    var l := StripLeft(s);
    StripLeftSpec(s);
    StripRightSpec(l);
    var r := Strip(s);
    var i := |s| - |l|;
    assert r == s[i..i + |r|];
    assert forall k :: i + |r| <= k < |s| ==> s[k] == l[k - i];
    assert TrimmedAt(s, r, i);
  }

  /** Stripping twice is stripping once. */
  lemma StripIdempotent(s: string)
    ensures Strip(Strip(s)) == Strip(s)
  {
    var r := Strip(s);
    StripSpec(s);
    if r != [] {
      assert StripLeft(r) == r;
      assert StripRight(r) == r;
    }
  }

  // ---------------------------------------------------------------------------------------
  // get_ai_response

  /** What `get_ai_response` does to the user table and the call trace, and what it returns. */
  datatype AiStep = AiStep(result: Outcome<string>, users: Users, calls: seq<CompletionCall>)

  function AiSpec(users: Users, calls: seq<CompletionCall>, u: UserId, prompt: Option<string>,
                  history: seq<ChatMessage>, mode: int, now: int, service: Service): AiStep
  {
    match ApplyUsage(users, u, 1, mode, now)
    case None => AiStep(Returned(QuotaMessage), users, calls)
    case Some(charged) =>
      var messages := BuildMessages(prompt, history);
      var response := service(|calls|, messages);
      var calls' := calls + [CompletionCall(u, UsageDay(now), messages)];
      if response.statusCode != 200 then AiStep(Raised(FailurePrefix + response.text), charged, calls')
      else AiStep(Returned(Strip(response.content)), charged, calls')
  }

  /** The quota gate: a request is made exactly when one more unit fits in today's quota, and
      then exactly one, charged to `u` today, carrying the preamble, the history in order and
      the prompt; otherwise the quota text is returned and nothing changes. */
  lemma AiSpecGate(users: Users, calls: seq<CompletionCall>, u: UserId, prompt: Option<string>,
                   history: seq<ChatMessage>, mode: int, now: int, service: Service)
    ensures var a := AiSpec(users, calls, u, prompt, history, mode, now, service);
            var allowed := EffectiveCount(users, u, UsageDay(now)) < DailyLimit;
            && (allowed ==>
                  && a.calls == calls + [CompletionCall(u, UsageDay(now), BuildMessages(prompt, history))]
                  && a.users == ApplyUsage(users, u, 1, mode, now).value
                  && EffectiveCount(a.users, u, UsageDay(now)) == EffectiveCount(users, u, UsageDay(now)) + 1)
            && (!allowed ==> a == AiStep(Returned(QuotaMessage), users, calls))
  {
    ApplyUsageSpec(users, u, 1, mode, now);
  }

  /** The answer of a request that was made: the stripped first choice on status 200, an
      exception carrying the body text otherwise. */
  lemma AiSpecAnswer(users: Users, calls: seq<CompletionCall>, u: UserId, prompt: Option<string>,
                     history: seq<ChatMessage>, mode: int, now: int, service: Service)
    requires EffectiveCount(users, u, UsageDay(now)) < DailyLimit
    ensures var a := AiSpec(users, calls, u, prompt, history, mode, now, service);
            var response := service(|calls|, BuildMessages(prompt, history));
            && (response.statusCode == 200 <==> a.result.Returned?)
            && (response.statusCode == 200 ==> a.result.value == Strip(response.content))
            && (response.statusCode != 200 ==> a.result.message == FailurePrefix + response.text)
  {
    ApplyUsageSpec(users, u, 1, mode, now);
  }

  class OpenAiHandler {
    const db: DynamoDbHandler
    const service: Service
    /** Every request POSTed so far. */
    var calls: seq<CompletionCall>

    constructor (db: DynamoDbHandler, service: Service)
      ensures this.db == db && this.service == service && calls == []
    {
      this.db := db;
      this.service := service;
      calls := [];
    }

    /** `get_ai_response`: charge one unit, returning the quota text if that raises; otherwise
        build the message list and make the request. */
    method GetAiResponse(prompt: Option<string>, userId: UserId, history: seq<ChatMessage>, modeCode: int, now: int)
      returns (r: Outcome<string>)
      modifies this, db
      ensures var a := AiSpec(old(db.users), old(calls), userId, prompt, history, modeCode, now, service);
              r == a.result && db.users == a.users && calls == a.calls
      ensures db.log == old(db.log)
    {
      var charged := db.UpdateUserUsage(userId, 1, modeCode, now);
      if charged.Raised? {
        return Returned(charged.message);
      }
      var messages := [ChatMessage(System, Some(SystemPreamble))] + history + [ChatMessage(User, prompt)];
      var response := service(|calls|, messages);
      calls := calls + [CompletionCall(userId, UsageDay(now), messages)];
      if response.statusCode != 200 {
        return Raised(FailurePrefix + response.text);
      }
      r := Returned(Strip(response.content));
    }
  }
}
