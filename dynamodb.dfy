/** The usage store: the per-user table (daily quota counter and current mode) and the
    append-only conversation log, with the usage-day clock they are keyed by.
    Time is integer epoch seconds (UTC); calendar dates are day numbers. */
module DynamoDB {
  import opened Common

  const UtcOffset: int := 9 * 3600
  const ResetHour: int := 4
  const SecondsPerDay: int := 86400
  /** Most quota units a user may spend in one usage day. */
  const DailyLimit: int := 6
  /** Number of log entries the conversation history is read from. */
  const HistoryLimit: nat := 6
  /** The text of the exception raised when an update would exceed the daily limit. */
  const QuotaMessage: string := "利用制限に達しました。明日の午前4時にリセットされます。"

  // ---------------------------------------------------------------------------------------
  // Clock

  /** Day number of the UTC+9 calendar date at epoch second `t`. */
  function LocalDate(t: int): int {
    (t + UtcOffset) / SecondsPerDay
  }

  /** Hour of the day (0..23) on the UTC+9 wall clock at epoch second `t`. */
  function LocalHour(t: int): (h: int)
    ensures 0 <= h < 24
  {
    (t + UtcOffset) % SecondsPerDay / 3600
  }

  /** The usage day of `t`: the UTC+9 calendar date, or the previous one before 04:00. */
  function UsageDay(t: int): int {
    if LocalHour(t) < ResetHour then LocalDate(t) - 1 else LocalDate(t)
  }

  /** A usage day is a plain day count on a clock five hours ahead of UTC (UTC+9, less the
      four hours before the reset). */
  lemma UsageDayShift(t: int)
    ensures UsageDay(t) == (t + UtcOffset - ResetHour * 3600) / SecondsPerDay
  {
    var s := t + UtcOffset;
    var q, r := s / SecondsPerDay, s % SecondsPerDay;
    assert s == SecondsPerDay * q + r && 0 <= r < SecondsPerDay;
    if r < ResetHour * 3600 {
      assert s - ResetHour * 3600 == SecondsPerDay * (q - 1) + (r + SecondsPerDay - ResetHour * 3600);
    } else {
      assert s - ResetHour * 3600 == SecondsPerDay * q + (r - ResetHour * 3600);
    }
  }

  /** The usage day changes exactly at 04:00 UTC+9: the 86400 seconds starting at a local
      04:00 all share one usage day, the next one, never the one of the second before. */
  lemma UsageDayRollsOverAtFour(start: int, t: int)
    requires (start + UtcOffset) % SecondsPerDay == ResetHour * 3600
    requires start <= t < start + SecondsPerDay
    ensures UsageDay(t) == UsageDay(start) == UsageDay(start - 1) + 1
  {
    UsageDayShift(start);
    UsageDayShift(start - 1);
    UsageDayShift(t);
    var q := (start + UtcOffset) / SecondsPerDay;
    assert start + UtcOffset - ResetHour * 3600 == SecondsPerDay * q;
  }

  /** Later instants never have an earlier usage day. */
  lemma UsageDayMonotonic(t: int, t': int)
    requires t <= t'
    ensures UsageDay(t) <= UsageDay(t')
  {
    UsageDayShift(t);
    UsageDayShift(t');
  }

  // ---------------------------------------------------------------------------------------
  // User table

  /** An item of the user table, without its key. */
  datatype UserRecord = UserRecord(apiCountTotal: int, modeCode: int, lastUsedDate: int)

  type Users = map<UserId, UserRecord>

  /** The units already spent in usage day `day`: the stored count if it was written that
      day, and 0 for an absent record or one written on another day. */
  function EffectiveCount(users: Users, u: UserId, day: int): int {
    if u in users && users[u].lastUsedDate == day then users[u].apiCountTotal else 0
  }

  /** The user table's invariant: no stored count exceeds the daily limit. */
  ghost predicate WithinQuota(users: Users) {
    forall v :: v in users ==> users[v].apiCountTotal <= DailyLimit
  }

  /** `update_user_usage`: the new table, or `None` where the call raises `QuotaMessage`
      (and writes nothing). */
  function ApplyUsage(users: Users, u: UserId, apiCount: int, mode: int, now: int): Option<Users> {
    var today := UsageDay(now);
    if u !in users || users[u].lastUsedDate != today then
      if apiCount > DailyLimit then None
      else Some(users[u := UserRecord(apiCount, mode, today)])
    else
      var updated := users[u].apiCountTotal + apiCount;
      if updated > DailyLimit then None
      else Some(users[u := UserRecord(updated, mode, today)])
  }

  /** Reset-or-accumulate as one rule: the call succeeds exactly when the units already spent
      today plus `apiCount` stay within the limit, and then the user's record holds that sum,
      the new mode and today's usage day, while every other user's record is unchanged. */
  lemma ApplyUsageSpec(users: Users, u: UserId, apiCount: int, mode: int, now: int)
    ensures var today := UsageDay(now);
            var spent := EffectiveCount(users, u, today) + apiCount;
            && (ApplyUsage(users, u, apiCount, mode, now).Some? <==> spent <= DailyLimit)
            && (spent <= DailyLimit ==>
                  ApplyUsage(users, u, apiCount, mode, now).value == users[u := UserRecord(spent, mode, today)])
  {
  }

  /** A successful update keeps every stored count within the limit. */
  lemma ApplyUsageKeepsQuota(users: Users, u: UserId, apiCount: int, mode: int, now: int)
    requires WithinQuota(users)
    requires ApplyUsage(users, u, apiCount, mode, now).Some?
    ensures WithinQuota(ApplyUsage(users, u, apiCount, mode, now).value)
    ensures ApplyUsage(users, u, apiCount, mode, now).value[u].apiCountTotal <= DailyLimit
  {
  }

  /** A zero-cost update never raises while the table is within quota: only calls that add
      units can exhaust the quota. */
  lemma ZeroCostNeverRaises(users: Users, u: UserId, mode: int, now: int)
    requires u in users ==> users[u].apiCountTotal <= DailyLimit
    ensures ApplyUsage(users, u, 0, mode, now).Some?
  {
  }

  /** Examples of the usage guard: six units at once fit in a fresh day, a seventh unit that
      day is refused, and the next usage day starts again from the new unit. */
  lemma QuotaExamples(users: Users, u: UserId, mode: int, now: int)
    requires u !in users
    ensures var full := ApplyUsage(users, u, 6, mode, now);
            && full.Some? && full.value[u].apiCountTotal == 6
            && ApplyUsage(full.value, u, 1, mode, now) == None
            && ApplyUsage(full.value, u, 1, mode, now + SecondsPerDay).Some?
            && ApplyUsage(full.value, u, 1, mode, now + SecondsPerDay).value[u].apiCountTotal == 1
  {
    UsageDayShift(now);
    UsageDayShift(now + SecondsPerDay);
  }

  /** `update_mode_code`: an existing record changes only its mode; a new user gets a record
      with no units spent, dated with the plain UTC+9 calendar date (no 04:00 shift). */
  function SetMode(users: Users, u: UserId, mode: int, now: int): (r: Users)
    ensures r.Keys == users.Keys + {u}
    ensures u in users ==> r[u] == users[u].(modeCode := mode)
    ensures u !in users ==> r[u] == UserRecord(0, mode, LocalDate(now))
    ensures forall v :: v in users && v != u ==> r[v] == users[v]
  {
    if u in users then users[u := users[u].(modeCode := mode)]
    else users[u := UserRecord(0, mode, LocalDate(now))]
  }

  /** `update_mode_code` keeps the table within quota and leaves every user's spent units of
      every usage day as they were. */
  lemma SetModeKeepsCounts(users: Users, u: UserId, mode: int, now: int, day: int)
    requires WithinQuota(users)
    ensures WithinQuota(SetMode(users, u, mode, now))
    ensures forall v :: EffectiveCount(SetMode(users, u, mode, now), v, day) == EffectiveCount(users, v, day)
  {
  }

  /** `get_mode_code`: the stored mode, 0 for an unknown user. */
  function ModeOf(users: Users, u: UserId): int {
    if u in users then users[u].modeCode else 0
  }

  // ---------------------------------------------------------------------------------------
  // Conversation log

  /** An item of the log table; `createdAt` is the UTC+9 wall-clock second. */
  datatype LogEntry = LogEntry(userId: UserId, userMessage: string, aiResponse: string, modeCode: int, createdAt: int)

  /** The log entries of user `u`, in the order they were saved. */
  function UserEntries(log: seq<LogEntry>, u: UserId): (r: seq<LogEntry>)
    ensures |r| <= |log|
    ensures forall e :: e in r ==> e in log && e.userId == u
  {
    if log == [] then []
    else if log[|log| - 1].userId == u then UserEntries(log[..|log| - 1], u) + [log[|log| - 1]]
    else UserEntries(log[..|log| - 1], u)
  }

  function Reverse<T>(s: seq<T>): (r: seq<T>)
    ensures |r| == |s|
  {
    if s == [] then [] else Reverse(s[1..]) + [s[0]]
  }

  lemma {:induction false} ReverseAt<T>(s: seq<T>, k: nat)
    requires k < |s|
    ensures Reverse(s)[k] == s[|s| - 1 - k]
  {
    if k < |s| - 1 {
      ReverseAt(s[1..], k);
    }
  }

  lemma ReverseReverse<T>(s: seq<T>)
    ensures Reverse(Reverse(s)) == s
  {
    forall k | 0 <= k < |s|
      ensures Reverse(Reverse(s))[k] == s[k]
    {
      ReverseAt(Reverse(s), k);
      ReverseAt(s, |s| - 1 - k);
    }
  }

  /** The log query (`ScanIndexForward=False`, `Limit=6`): the user's entries newest first,
      cut after the first `HistoryLimit`. */
  function QueryRecent(log: seq<LogEntry>, u: UserId): seq<LogEntry> {
    var newest := Reverse(UserEntries(log, u));
    if |newest| <= HistoryLimit then newest else newest[..HistoryLimit]
  }

  /** The window the history is read from: the last min(6, n) entries of `u`, oldest first. */
  function Window(log: seq<LogEntry>, u: UserId): (w: seq<LogEntry>)
    ensures var mine := UserEntries(log, u);
            && |w| == (if |mine| <= HistoryLimit then |mine| else HistoryLimit)
            && w == mine[|mine| - |w|..]
  {
    var mine := UserEntries(log, u);
    if |mine| <= HistoryLimit then mine else mine[|mine| - HistoryLimit..]
  }

  /** History turns for a run of log entries: each entry gives a user turn with its message
      followed by an assistant turn with its response. */
  function Turns(entries: seq<LogEntry>): seq<ChatMessage> {
    if entries == [] then []
    else Turns(entries[..|entries| - 1])
         + [ChatMessage(User, Some(entries[|entries| - 1].userMessage)),
            ChatMessage(Assistant, Some(entries[|entries| - 1].aiResponse))]
  }

  /** The turns strictly alternate user, assistant, and the i-th pair carries the i-th entry. */
  lemma {:induction false} TurnsShape(entries: seq<LogEntry>)
    ensures |Turns(entries)| == 2 * |entries|
    ensures forall i :: 0 <= i < |entries| ==>
              && Turns(entries)[2 * i] == ChatMessage(User, Some(entries[i].userMessage))
              && Turns(entries)[2 * i + 1] == ChatMessage(Assistant, Some(entries[i].aiResponse))
  {
    if entries != [] {
      TurnsShape(entries[..|entries| - 1]);
    }
  }

  /** The conversation history of `u`: the turns of its window. */
  function History(log: seq<LogEntry>, u: UserId): seq<ChatMessage> {
    Turns(Window(log, u))
  }

  /** The history has two turns per entry of the window (the user's min(6, n) most recent
      entries, oldest first), in user/assistant alternation, the i-th pair carrying the i-th
      entry of the window. */
  lemma HistoryShape(log: seq<LogEntry>, u: UserId)
    ensures var w := Window(log, u);
            && |History(log, u)| == 2 * |w|
            && forall i :: 0 <= i < |w| ==>
                 && History(log, u)[2 * i] == ChatMessage(User, Some(w[i].userMessage))
                 && History(log, u)[2 * i + 1] == ChatMessage(Assistant, Some(w[i].aiResponse))
  {
    TurnsShape(Window(log, u));
  }

  /** The query's items, reversed, are the window: the user's last min(6, n) entries in the
      order they were saved. */
  lemma QueryRecentReversed(log: seq<LogEntry>, u: UserId)
    ensures Reverse(QueryRecent(log, u)) == Window(log, u)
  {
    var mine := UserEntries(log, u);
    var q := QueryRecent(log, u);
    var w := Window(log, u);
    forall i | 0 <= i < |w|
      ensures Reverse(q)[i] == w[i]
    {
      ReverseAt(q, i);
      ReverseAt(mine, |q| - 1 - i);
    }
  }

  /** Saving a log entry of another user leaves the history of `u` as it was. */
  lemma {:induction false} UserEntriesAppend(log: seq<LogEntry>, e: LogEntry, u: UserId)
    ensures UserEntries(log + [e], u) == if e.userId == u then UserEntries(log, u) + [e] else UserEntries(log, u)
  {
    assert (log + [e])[..|log + [e]| - 1] == log;
  }

  // ---------------------------------------------------------------------------------------
  // The handler over an in-memory store

  class DynamoDbHandler {
    var users: Users
    var log: seq<LogEntry>

    /** A handler over tables with the given contents. */
    constructor (users: Users, log: seq<LogEntry>)
      ensures this.users == users && this.log == log
    {
      this.users := users;
      this.log := log;
    }

    /** `update_user_usage`: read the record, reset or accumulate, and refuse with
        `QuotaMessage` an update that would exceed the limit. */
    method UpdateUserUsage(userId: UserId, apiCount: int, modeCode: int, now: int) returns (r: Outcome<()>)
      modifies this
      ensures r.Raised? <==> ApplyUsage(old(users), userId, apiCount, modeCode, now).None?
      ensures r.Raised? ==> r.message == QuotaMessage && users == old(users)
      ensures r.Returned? ==> users == ApplyUsage(old(users), userId, apiCount, modeCode, now).value
      ensures log == old(log)
    {
      var today := UsageDay(now);
      if userId !in users || users[userId].lastUsedDate != today {
        if apiCount > DailyLimit {
          return Raised(QuotaMessage);
        }
        users := users[userId := UserRecord(apiCount, modeCode, today)];
      } else {
        var updatedApiCount := users[userId].apiCountTotal + apiCount;
        if updatedApiCount > DailyLimit {
          return Raised(QuotaMessage);
        }
        users := users[userId := users[userId].(apiCountTotal := users[userId].apiCountTotal + apiCount,
                                                modeCode := modeCode, lastUsedDate := today)];
      }
      r := Returned(());
    }

    /** `update_mode_code`. */
    method UpdateModeCode(userId: UserId, modeCode: int, now: int)
      modifies this
      ensures users == SetMode(old(users), userId, modeCode, now)
      ensures log == old(log)
    {
      var today := LocalDate(now);
      if userId in users {
        users := users[userId := users[userId].(modeCode := modeCode)];
      } else {
        users := users[userId := UserRecord(0, modeCode, today)];
      }
    }

    /** `get_mode_code`: the stored mode, or 0 for an unknown user. */
    method GetModeCode(userId: UserId) returns (m: int)
      ensures userId in users ==> m == users[userId].modeCode
      ensures userId !in users ==> m == 0
    {
      if userId in users {
        m := users[userId].modeCode;
      } else {
        m := 0;
      }
    }

    /** `save_log`: append one entry stamped with the UTC+9 wall-clock second. */
    method SaveLog(userId: UserId, userMessage: string, aiResponse: string, modeCode: int, now: int)
      modifies this
      ensures log == old(log) + [LogEntry(userId, userMessage, aiResponse, modeCode, now + UtcOffset)]
      ensures users == old(users)
    {
      var timestamp := now + UtcOffset;
      log := log + [LogEntry(userId, userMessage, aiResponse, modeCode, timestamp)];
    }

    /** `get_conversation_history`: query the most recent entries, restore their chronological
        order, and turn each into a user turn and an assistant turn. */
    method GetConversationHistory(userId: UserId) returns (history: seq<ChatMessage>)
      ensures history == History(log, userId)
    {
      var response := QueryRecent(log, userId);
      var items := Reverse(response);
      QueryRecentReversed(log, userId);
      history := [];
      var i := 0;
      while i < |items|
        invariant 0 <= i <= |items|
        invariant history == Turns(items[..i])
      {
        assert items[..i + 1][..i] == items[..i];
        history := history + [ChatMessage(User, Some(items[i].userMessage)),
                              ChatMessage(Assistant, Some(items[i].aiResponse))];
        i := i + 1;
      }
      assert items[..i] == items;
    }
  }
}
