/**
 * The daily usage quota of the bot: one persisted record `{date, count}`
 * that gates the expensive completion call to at most DAILY_LIMIT uses per
 * calendar day.
 *
 * The persisted file is modelled as `Option<Record>` (None: the file does
 * not exist). "Today" is an input: rollover is detected only by inequality
 * of the stored date and today's date, so dates are plain strings.
 */
module UsageCounter {

  datatype Option<T> = None | Some(value: T)

  /** The persisted record: the day the count applies to, and the count. */
  datatype Record = Record(date: string, count: int)

  const DAILY_LIMIT: int := 10

  /** The record that stands in for a missing file, and that a rollover writes. */
  function FreshRecord(today: string): Record
  {
    Record(today, 0)
  }

  /** No stored count is negative (nothing in the program writes a negative one). */
  predicate WellFormed(stored: Option<Record>)
  {
    stored.None? || stored.value.count >= 0
  }

  /** True when a record is stored and it is for today. */
  predicate IsCurrent(stored: Option<Record>, today: string)
  {
    stored.Some? && stored.value.date == today
  }

  /**
   * Reference definition: the number of uses already recorded for today.
   * A missing file, or a record for another day, means none.
   */
  function UsedToday(stored: Option<Record>, today: string): int
  {
    if IsCurrent(stored, today) then stored.value.count else 0
  }

  // ---------------------------------------------------------------------
  // The operations on values: what each one answers and what it leaves stored.
  // ---------------------------------------------------------------------

  /** The record load_usage hands back: the stored one, or a fresh one for today. */
  function Loaded(stored: Option<Record>, today: string): Record
  {
    match stored
    case Some(r) => r
    case None => FreshRecord(today)
  }

  /** The answer of can_use_api. */
  function CanUse(stored: Option<Record>, today: string): (ok: bool)
    ensures ok <==> UsedToday(stored, today) < DAILY_LIMIT
    ensures !IsCurrent(stored, today) ==> ok
    ensures IsCurrent(stored, today) ==> (ok <==> stored.value.count < DAILY_LIMIT)
  {
    var usage := Loaded(stored, today);
    if usage.date != today then true else usage.count < DAILY_LIMIT
  }

  /** The record stored after can_use_api: always today's, holding today's count. */
  function AfterCheck(stored: Option<Record>, today: string): (r: Record)
    ensures r.date == today
    ensures r.count == UsedToday(stored, today)
    ensures IsCurrent(stored, today) ==> r == stored.value
    ensures !IsCurrent(stored, today) ==> r == Record(today, 0)
  {
    var usage := Loaded(stored, today);
    if usage.date != today then FreshRecord(today) else usage
  }

  /** The record stored after increment_usage: one more use than recorded for today. */
  function AfterIncrement(stored: Option<Record>, today: string): (r: Record)
    ensures r.date == today
    ensures r.count == UsedToday(stored, today) + 1
    ensures IsCurrent(stored, today) ==> r.count == stored.value.count + 1
    ensures !IsCurrent(stored, today) ==> r == Record(today, 1)
  {
    var usage := Loaded(stored, today);
    var base := if usage.date != today then FreshRecord(today) else usage;
    base.(count := base.count + 1)
  }

  // ---------------------------------------------------------------------
  // The persisted file and the four operations of the program on it.
  // ---------------------------------------------------------------------

  class UsageStore {
    /** The contents of the usage file; None while the file does not exist. */
    var stored: Option<Record>
    /** Every record written to the file, oldest first. */
    ghost var writes: seq<Record>

    ghost predicate Valid()
      reads this
    {
      |writes| > 0 ==> stored == Some(writes[|writes| - 1])
    }

    constructor (initial: Option<Record>)
      ensures Valid()
      ensures stored == initial && writes == []
    {
      stored := initial;
      writes := [];
    }

    /** save_usage: overwrite the whole file with `data`. */
    method SaveUsage(data: Record)
      requires Valid()
      modifies this
      ensures Valid()
      ensures stored == Some(data)
      ensures writes == old(writes) + [data]
    {
      stored := Some(data);
      writes := writes + [data];
    }

    /**
     * load_usage: the stored record, unchanged and without a write; with no
     * file, a fresh record for today, which is written first.
     */
    method LoadUsage(today: string) returns (data: Record)
      requires Valid()
      modifies this
      ensures Valid()
      ensures data == Loaded(old(stored), today)
      ensures old(stored).Some? ==> data == old(stored).value && stored == old(stored) && writes == old(writes)
      ensures old(stored).None? ==> data == Record(today, 0) && stored == Some(data) && writes == old(writes) + [data]
    {
      if stored.Some? {
        data := stored.value;
      } else {
        data := FreshRecord(today);
        SaveUsage(data);
      }
    }

    /**
     * can_use_api: true on a new day (after resetting the file to today's
     * fresh record), otherwise whether today's count is below the limit.
     */
    method CanUseApi(today: string) returns (ok: bool)
      requires Valid()
      modifies this
      ensures Valid() && (WellFormed(old(stored)) ==> WellFormed(stored))
      ensures ok == CanUse(old(stored), today)
      ensures stored == Some(AfterCheck(old(stored), today))
      ensures IsCurrent(old(stored), today) ==> stored == old(stored) && writes == old(writes)
      ensures !IsCurrent(old(stored), today) ==> ok && writes == old(writes) + [Record(today, 0)]
    {
      var usage := LoadUsage(today);
      if usage.date != today {
        usage := FreshRecord(today);
        SaveUsage(usage);
        return true;
      }
      ok := usage.count < DAILY_LIMIT;
    }

    /**
     * increment_usage: starts from today's fresh record when the stored one
     * is stale, adds one use whatever the count is, and writes the result.
     */
    method IncrementUsage(today: string)
      requires Valid()
      modifies this
      ensures Valid() && (WellFormed(old(stored)) ==> WellFormed(stored))
      ensures stored == Some(AfterIncrement(old(stored), today))
      ensures old(stored).None? ==> writes == old(writes) + [Record(today, 0), Record(today, 1)]
      ensures old(stored).Some? ==> writes == old(writes) + [AfterIncrement(old(stored), today)]
    {
      var usage := LoadUsage(today);
      if usage.date != today {
        usage := FreshRecord(today);
      }
      usage := usage.(count := usage.count + 1);
      SaveUsage(usage);
    }
  }

  // ---------------------------------------------------------------------
  // Properties of single operations.
  // ---------------------------------------------------------------------

  /** Asking again without a use in between changes nothing and gives the same answer. */
  lemma CheckIdempotent(stored: Option<Record>, today: string)
    ensures AfterCheck(Some(AfterCheck(stored, today)), today) == AfterCheck(stored, today)
    ensures CanUse(Some(AfterCheck(stored, today)), today) == CanUse(stored, today)
  {
  }

  /** Every operation keeps counts non-negative. */
  lemma OperationsKeepWellFormed(stored: Option<Record>, today: string)
    requires WellFormed(stored)
    ensures AfterCheck(stored, today).count >= 0
    ensures AfterIncrement(stored, today).count >= 1
  {
  }

  // ---------------------------------------------------------------------
  // Sequences of calls made on one date.
  // ---------------------------------------------------------------------

  datatype Call = Check | Increment

  /** The record stored after one call. */
  function Step(stored: Option<Record>, today: string, c: Call): Record
  {
    match c
    case Check => AfterCheck(stored, today)
    case Increment => AfterIncrement(stored, today)
  }

  /** What is stored after making `calls` in order, all on the date `today`. */
  function Run(stored: Option<Record>, today: string, calls: seq<Call>): Option<Record>
    decreases |calls|
  {
    if calls == [] then stored
    else Run(Some(Step(stored, today, calls[0])), today, calls[1..])
  }

  /** The answers the Check calls among `calls` receive, in order. */
  function Answers(stored: Option<Record>, today: string, calls: seq<Call>): seq<bool>
    decreases |calls|
  {
    if calls == [] then []
    else
      var rest := Answers(Some(Step(stored, today, calls[0])), today, calls[1..]);
      if calls[0] == Check then [CanUse(stored, today)] + rest else rest
  }

  /** The number of Increment calls in `calls`. */
  function Increments(calls: seq<Call>): nat
    decreases |calls|
  {
    if calls == [] then 0
    else (if calls[0] == Increment then 1 else 0) + Increments(calls[1..])
  }

  /** `n` calls of `c`. */
  function Repeat(c: Call, n: nat): (r: seq<Call>)
    ensures |r| == n
  {
    if n == 0 then [] else [c] + Repeat(c, n - 1)
  }

  /**
   * Within one date the count changes only by increments: after any calls it
   * is today's earlier count plus the number of increments. So it never
   * decreases, and never goes below zero from a well-formed start.
   */
  lemma {:induction false} RunCountsIncrements(stored: Option<Record>, today: string, calls: seq<Call>)
    ensures calls != [] ==> IsCurrent(Run(stored, today, calls), today)
    ensures UsedToday(Run(stored, today, calls), today) == UsedToday(stored, today) + Increments(calls)
    ensures UsedToday(Run(stored, today, calls), today) >= UsedToday(stored, today)
    ensures WellFormed(stored) ==> WellFormed(Run(stored, today, calls))
    decreases |calls|
  {
    if calls != [] {
      var next := Some(Step(stored, today, calls[0]));
      RunCountsIncrements(next, today, calls[1..]);
    }
  }

  /** From today's fresh record, `n` increments leave exactly `{today, n}`. */
  lemma {:induction false} IncrementsFromFresh(today: string, n: nat)
    ensures Run(Some(FreshRecord(today)), today, Repeat(Increment, n)) == Some(Record(today, n))
  {
    if n > 0 {
      IncrementsFromFresh(today, n - 1);
      RunStepsBack(Some(FreshRecord(today)), today, Repeat(Increment, n - 1), Increment);
      RepeatSnoc(Increment, n - 1);
    }
  }

  lemma {:induction false} RepeatSnoc(c: Call, n: nat)
    ensures Repeat(c, n + 1) == Repeat(c, n) + [c]
  {
    if n > 0 {
      RepeatSnoc(c, n - 1);
    }
  }

  /** Running `calls + [c]` is running `calls` and then the single call `c`. */
  lemma {:induction false} RunStepsBack(stored: Option<Record>, today: string, calls: seq<Call>, c: Call)
    ensures Run(stored, today, calls + [c]) == Some(Step(Run(stored, today, calls), today, c))
    decreases |calls|
  {
    if calls == [] {
      assert calls + [c] == [c];
    } else {
      assert (calls + [c])[1..] == calls[1..] + [c];
      RunStepsBack(Some(Step(stored, today, calls[0])), today, calls[1..], c);
    }
  }

  /** Once today's count has reached the limit, every later check that day is refused. */
  lemma {:induction false} ExhaustedStaysExhausted(stored: Option<Record>, today: string, calls: seq<Call>)
    requires UsedToday(stored, today) >= DAILY_LIMIT
    ensures UsedToday(Run(stored, today, calls), today) >= DAILY_LIMIT
    ensures true !in Answers(stored, today, calls)
    decreases |calls|
  {
    if calls != [] {
      var next := Some(Step(stored, today, calls[0]));
      ExhaustedStaysExhausted(next, today, calls[1..]);
    }
  }

  /**
   * Starting from `{today, 0}`, after DAILY_LIMIT increments the check is
   * refused, and so is every later check of that day, whatever calls follow.
   */
  lemma LimitReachedAfterDailyLimitIncrements(today: string, later: seq<Call>)
    ensures var s := Run(Some(FreshRecord(today)), today, Repeat(Increment, DAILY_LIMIT));
      !CanUse(s, today) && true !in Answers(s, today, later)
  {
    IncrementsFromFresh(today, DAILY_LIMIT);
    ExhaustedStaysExhausted(Some(Record(today, DAILY_LIMIT)), today, later);
  }

  /** Each count below the limit is allowed, each at or above it refused. */
  lemma {:induction false} ChecksBelowLimitAllowed(today: string, n: nat)
    ensures var s := Run(Some(FreshRecord(today)), today, Repeat(Increment, n));
      CanUse(s, today) <==> n < DAILY_LIMIT
  {
    IncrementsFromFresh(today, n);
  }

  // ---------------------------------------------------------------------
  // Clients of the store.
  // ---------------------------------------------------------------------

  /** Writing a record and reading it back gives the same date and count. */
  method SaveThenLoad(store: UsageStore, data: Record, today: string)
    returns (back: Record)
    requires store.Valid()
    modifies store
    ensures store.Valid()
    ensures back == data && store.stored == Some(data)
    ensures store.writes == old(store.writes) + [data]
  {
    store.SaveUsage(data);
    back := store.LoadUsage(today);
  }

  /** The three concrete situations of the quota, seen only through the contracts. */
  method DailyScenarios(today: string, yesterday: string)
    requires today != yesterday
  {
    // No file: allowed, and today's fresh record is written.
    var first := new UsageStore(None);
    var ok := first.CanUseApi(today);
    assert ok && first.stored == Some(Record(today, 0));

    // Nine uses today: allowed once more, then refused.
    var busy := new UsageStore(Some(Record(today, 9)));
    ok := busy.CanUseApi(today);
    assert ok;
    busy.IncrementUsage(today);
    assert busy.stored == Some(Record(today, 10));
    ok := busy.CanUseApi(today);
    assert !ok;

    // Yesterday's exhausted record: allowed, and reset to today's fresh record.
    var stale := new UsageStore(Some(Record(yesterday, 10)));
    ok := stale.CanUseApi(today);
    assert ok && stale.stored == Some(Record(today, 0));
  }
}
