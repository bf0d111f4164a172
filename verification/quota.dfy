/**
 * The daily-quota ledger of the chat proxy, as pure functions: the charge
 * estimated from the upstream token counts, the upsert that accrues it, the
 * totals reported to the caller and the usage summary.
 */
module Quota {
  import opened Tables

  /** Every answered request costs at least this many minutes. */
  const MinCharge: real := 0.1
  /** About 1.3 tokens make one word. */
  const TokensPerWord: real := 1.3
  /** About 200 words are spoken or read in one minute. */
  const WordsPerMinute: real := 200.0

  /**
   * What the upstream conversational API does with a forwarded request:
   * it answers with (possibly missing) token counts, answers with a
   * non-success status, or fails to produce anything the server can read
   * (the fetch rejects, or a body is not JSON), which the handler's catch
   * turns into a 500.
   */
  datatype Upstream =
    | Reply(inputTokens: Option<nat>, outputTokens: Option<nat>)
    | Rejected(status: int)
    | Threw

  // ---------------------------------------------------------------------
  // Estimating the charge
  // ---------------------------------------------------------------------

  /**
   * `usage.input_tokens + usage.output_tokens || 0`: when either count is
   * missing the sum is NaN, which is falsy, so the total is 0.
   */
  function TokensUsed(input: Option<nat>, output: Option<nat>): (t: nat)
    ensures input.None? || output.None? ==> t == 0
    ensures input.Some? && output.Some? ==> t >= input.value && t >= output.value
  {
    if input.Some? && output.Some? then input.value + output.value else 0
  }

  /** Minutes charged for `tokens` tokens: words / 200, but never below 0.1. */
  function EstimateMinutes(tokens: nat): (m: real)
    ensures m >= MinCharge
    ensures m >= tokens as real / (TokensPerWord * WordsPerMinute)
    ensures m == MinCharge <==> tokens <= 26
    ensures m == MinCharge || m == tokens as real / (TokensPerWord * WordsPerMinute)
  {
    var words := tokens as real / TokensPerWord;
    if MinCharge >= words / WordsPerMinute then MinCharge else words / WordsPerMinute
  }

  /** More tokens never cost fewer minutes. */
  lemma EstimateMonotone(t1: nat, t2: nat)
    requires t1 <= t2
    ensures EstimateMinutes(t1) <= EstimateMinutes(t2)
  {
  }

  /** The charge for one answered request, from the upstream usage counts. */
  function Charge(input: Option<nat>, output: Option<nat>): (m: real)
    ensures m >= MinCharge
    ensures input.None? || output.None? ==> m == MinCharge
    ensures input.Some? && output.Some? ==>
              m == EstimateMinutes(input.value + output.value)
  {
    EstimateMinutes(TokensUsed(input, output))
  }

  // ---------------------------------------------------------------------
  // Reading and accruing usage
  // ---------------------------------------------------------------------

  /** `COALESCE(us.minutes_used, 0)`: minutes used under `key`, 0 without a row. */
  function UsedOn(usage: map<Key, Row>, key: Key): (r: real)
    ensures key !in usage ==> r == 0.0
    ensures key in usage ==> r == usage[key].minutesUsed
    ensures r != 0.0 ==> key in usage && r == usage[key].minutesUsed
  {
    if key in usage then usage[key].minutesUsed else 0.0
  }

  /** Messages counted under `key`, 0 without a row. */
  function CountOn(usage: map<Key, Row>, key: Key): nat {
    if key in usage then usage[key].messagesCount else 0
  }

  /**
   * The upsert `INSERT ... VALUES (?, ?, m, 1) ON CONFLICT(user_id, date)
   * DO UPDATE SET minutes_used = minutes_used + m, messages_count =
   * messages_count + 1`. Both branches agree with "add to the row, a missing
   * row counting as zero", and no other row is touched.
   */
  function Accrue(usage: map<Key, Row>, key: Key, m: real): (r: map<Key, Row>)
    ensures r.Keys == usage.Keys + {key}
    ensures r[key].minutesUsed == UsedOn(usage, key) + m
    ensures r[key].messagesCount == CountOn(usage, key) + 1
    ensures forall k :: k in usage && k != key ==> r[k] == usage[k]
  {
    if key in usage then
      usage[key := Row(usage[key].minutesUsed + m, usage[key].messagesCount + 1)]
    else
      usage[key := Row(m, 1)]
  }

  /**
   * Every stored row records at least one message, and at least the
   * minimum charge for each of its messages.
   */
  ghost predicate RowsValid(usage: map<Key, Row>) {
    forall k :: k in usage ==>
      usage[k].messagesCount >= 1 &&
      usage[k].minutesUsed >= MinCharge * usage[k].messagesCount as real
  }

  /** Accruing a real charge keeps every row valid and no counter goes down. */
  lemma AccrueKeepsRowsValid(usage: map<Key, Row>, key: Key, m: real)
    requires RowsValid(usage) && m >= MinCharge
    ensures RowsValid(Accrue(usage, key, m))
    ensures forall k :: k in usage ==>
              Accrue(usage, key, m)[k].minutesUsed >= usage[k].minutesUsed &&
              Accrue(usage, key, m)[k].messagesCount >= usage[k].messagesCount
  {
  }

  /** `n` accruals of `m` minutes each under the same key, one after another. */
  function AccrueTimes(usage: map<Key, Row>, key: Key, m: real, n: nat): map<Key, Row>
    decreases n
  {
    if n == 0 then usage else Accrue(AccrueTimes(usage, key, m, n - 1), key, m)
  }

  /** The minutes half of AccrueLinear: `n` accruals of `m` add `n * m`. */
  lemma {:induction false} AccrueTimesMinutes(usage: map<Key, Row>, key: Key, m: real, n: nat)
    ensures UsedOn(AccrueTimes(usage, key, m, n), key) == UsedOn(usage, key) + n as real * m
  {
    if n == 0 {
      assert n as real * m == 0.0;
    } else {
      AccrueTimesMinutes(usage, key, m, n - 1);
      var before := AccrueTimes(usage, key, m, n - 1);
      calc {
        UsedOn(AccrueTimes(usage, key, m, n), key);
        UsedOn(before, key) + m;
        UsedOn(usage, key) + (n - 1) as real * m + m;
        { assert (n - 1) as real * m + m == n as real * m; }
        UsedOn(usage, key) + n as real * m;
      }
    }
  }

  /**
   * Accruals under one key add up with no lost update: after `n` of them
   * the row holds `n * m` more minutes and `n` more messages, and every
   * other row is as it was.
   */
  lemma {:induction false} AccrueLinear(usage: map<Key, Row>, key: Key, m: real, n: nat)
    ensures UsedOn(AccrueTimes(usage, key, m, n), key) == UsedOn(usage, key) + n as real * m
    ensures CountOn(AccrueTimes(usage, key, m, n), key) == CountOn(usage, key) + n
    ensures forall k :: k != key ==>
              (k in AccrueTimes(usage, key, m, n) <==> k in usage) &&
              (k in usage ==> AccrueTimes(usage, key, m, n)[k] == usage[k])
  {
    AccrueTimesMinutes(usage, key, m, n);
    if n > 0 {
      AccrueLinear(usage, key, m, n - 1);
      assert AccrueTimes(usage, key, m, n) == Accrue(AccrueTimes(usage, key, m, n - 1), key, m);
    }
  }

  // ---------------------------------------------------------------------
  // What the chat endpoint reports
  // ---------------------------------------------------------------------

  /** The `usage_info` object of a successful chat response. */
  datatype UsageInfo = UsageInfo(minutesUsedNow: real, totalUsedToday: real, dailyLimit: real, remaining: real)

  /**
   * The totals reported after charging `m` minutes, computed from the limit
   * and the usage read before the upstream call. When the request was
   * admitted (`used < limit`), the reported remainder is above `-m`: the
   * limit is overshot by less than one request's charge.
   */
  function Report(limit: real, used: real, m: real): (info: UsageInfo)
    ensures info.minutesUsedNow == m && info.dailyLimit == limit
    ensures info.totalUsedToday - used == m
    ensures info.remaining == info.dailyLimit - info.totalUsedToday
    ensures used < limit ==> info.remaining > -m
    ensures info.remaining >= 0.0 <==> used + m <= limit
  {
    UsageInfo(m, used + m, limit, limit - (used + m))
  }

  // ---------------------------------------------------------------------
  // The usage summary
  // ---------------------------------------------------------------------

  /** The dates on which user `uid` has a usage row. */
  function DatesOf(usage: map<Key, Row>, uid: UserId): (ds: set<Date>)
    ensures forall d :: d in ds <==> (uid, d) in usage
  {
    var ds := set k | k in usage && k.0 == uid :: k.1;
    assert forall d :: (uid, d) in usage ==> d in ds by {
      forall d | (uid, d) in usage ensures d in ds {
        var k: Key := (uid, d);
        assert k in usage && k.0 == uid;
      }
    }
    ds
  }

  /**
   * `SELECT ... FROM usage WHERE user_id = ? AND date >= firstDay`: the
   * user's rows of the month, keyed by date.
   */
  function MonthRows(usage: map<Key, Row>, uid: UserId, firstDay: Date): (rows: map<Date, Row>)
    ensures forall d :: d in rows <==> (uid, d) in usage && firstDay <= d
    ensures forall d :: d in rows ==> rows[d] == usage[(uid, d)]
  {
    map d | d in DatesOf(usage, uid) && firstDay <= d :: usage[(uid, d)]
  }

  /**
   * `rows.find(r => r.date === today) || { minutes_used: 0, messages_count: 0 }`,
   * looked up among the month's rows. Whenever the month has begun, it is
   * exactly what the chat admission reads for the same day.
   */
  function TodayUsage(usage: map<Key, Row>, uid: UserId, today: Date, firstDay: Date): (row: Row)
    ensures firstDay <= today ==>
              row.minutesUsed == UsedOn(usage, (uid, today)) &&
              row.messagesCount == CountOn(usage, (uid, today))
    ensures today < firstDay ==> row == Row(0.0, 0)
  {
    var rows := MonthRows(usage, uid, firstDay);
    if today in rows then rows[today] else Row(0.0, 0)
  }

  /**
   * `Math.max(0, daily_minutes - today.minutes_used)`: never negative, and
   * zero exactly when a chat request would be refused.
   */
  function RemainingToday(limit: real, used: real): (r: real)
    ensures r >= 0.0 && r >= limit - used
    ensures r == 0.0 || r == limit - used
    ensures r == 0.0 <==> used >= limit
  {
    if 0.0 >= limit - used then 0.0 else limit - used
  }

  /** The sum of `minutes_used` over a set of rows (`reduce` with `+` from 0). */
  ghost function SumMinutes(rows: map<Date, Row>): (s: real)
    ensures rows == map[] ==> s == 0.0
    ensures (forall d :: d in rows ==> rows[d].minutesUsed >= 0.0) ==> s >= 0.0
    decreases |rows|
  {
    if rows == map[] then 0.0
    else
      var d :| d in rows;
      assert |rows - {d}| < |rows| by { assert (rows - {d}).Keys < rows.Keys; }
      rows[d].minutesUsed + SumMinutes(rows - {d})
  }

  /** The sum does not depend on which row is taken first. */
  lemma {:induction false} SumMinutesPick(rows: map<Date, Row>, d: Date)
    requires d in rows
    ensures SumMinutes(rows) == rows[d].minutesUsed + SumMinutes(rows - {d})
    decreases |rows|
  {
    var e :| e in rows && SumMinutes(rows) == rows[e].minutesUsed + SumMinutes(rows - {e});
    if e != d {
      assert (rows - {e}).Keys < rows.Keys;
      assert (rows - {d}).Keys < rows.Keys;
      SumMinutesPick(rows - {e}, d);
      SumMinutesPick(rows - {d}, e);
      assert rows - {e} - {d} == rows - {d} - {e};
    }
  }

  /**
   * Once the month has begun, the monthly total includes today's minutes,
   * so it is at least what today's row reports.
   */
  lemma MonthlyCoversToday(usage: map<Key, Row>, uid: UserId, today: Date, firstDay: Date)
    requires RowsValid(usage)
    ensures SumMinutes(MonthRows(usage, uid, firstDay)) >= TodayUsage(usage, uid, today, firstDay).minutesUsed
  {
    var rows := MonthRows(usage, uid, firstDay);
    if today in rows {
      SumMinutesPick(rows, today);
    }
  }

  /** Charging `m` minutes today raises the caller's monthly total by exactly `m`. */
  lemma AccrueGrowsMonth(usage: map<Key, Row>, uid: UserId, today: Date, firstDay: Date, m: real)
    requires firstDay <= today
    ensures SumMinutes(MonthRows(Accrue(usage, (uid, today), m), uid, firstDay))
            == SumMinutes(MonthRows(usage, uid, firstDay)) + m
  {
    var rows := MonthRows(usage, uid, firstDay);
    var rows' := MonthRows(Accrue(usage, (uid, today), m), uid, firstDay);
    assert today in rows' && rows'[today].minutesUsed == UsedOn(usage, (uid, today)) + m;
    SumMinutesPick(rows', today);
    assert rows' - {today} == rows - {today} by {
      assert (rows' - {today}).Keys == (rows - {today}).Keys;
    }
    if today in rows {
      SumMinutesPick(rows, today);
    } else {
      assert rows - {today} == rows;
    }
  }

  /** Charging one user leaves every other user's month as it was. */
  lemma AccrueIsolated(usage: map<Key, Row>, uid: UserId, today: Date, other: UserId, firstDay: Date, m: real)
    requires other != uid
    ensures MonthRows(Accrue(usage, (uid, today), m), other, firstDay) == MonthRows(usage, other, firstDay)
  {
  }

  // ---------------------------------------------------------------------
  // Deleting a user's history
  // ---------------------------------------------------------------------

  /** `DELETE FROM usage WHERE user_id = ?`. */
  function WithoutUser(usage: map<Key, Row>, uid: UserId): (r: map<Key, Row>)
    ensures forall k :: k in r <==> k in usage && k.0 != uid
    ensures forall k :: k in r ==> r[k] == usage[k]
  {
    map k | k in usage && k.0 != uid :: usage[k]
  }

  /**
   * After the cascade the user has no history in any month, and every
   * other user's history is as it was.
   */
  lemma WithoutUserErasesHistory(usage: map<Key, Row>, uid: UserId, firstDay: Date)
    ensures MonthRows(WithoutUser(usage, uid), uid, firstDay) == map[]
    ensures forall other :: other != uid ==>
              MonthRows(WithoutUser(usage, uid), other, firstDay) == MonthRows(usage, other, firstDay)
  {
  }
}
