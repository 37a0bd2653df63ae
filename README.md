# Daily usage quota of the image-relay chat bot

The bot forwards an image's OCR text to a paid completion service. A quota of
`DAILY_LIMIT` (10) completion calls per calendar day gates each call. The quota
lives in one persisted record `{date, count}` (the file `usage_counter.json`).
It has four operations:

- `load_usage` reads the record. When the file is absent, it creates and writes
  `{today, 0}`.
- `save_usage` overwrites the record.
- `can_use_api` answers whether another use is allowed. On a new day it first
  resets the file to `{today, 0}`.
- `increment_usage` records one use. When the record is for another day, it
  starts again from `{today, 0}`.

This project models that component in Dafny and proves what it promises.

- `usage_counter.dfy` (module `UsageCounter`) holds the model:
  - The file is `stored: Option<Record>`, where `None` means the file does not
    exist. It is a field of the class `UsageStore`.
  - The class methods `SaveUsage`, `LoadUsage`, `CanUseApi` and `IncrementUsage`
    follow the source's branches one for one.
  - A ghost field `writes` logs every write to the file. This lets the contracts
    say when an operation writes and when it does not.
  - `CanUseApi` and `IncrementUsage` tie their answer and the new stored
    record to the pure functions `CanUse`, `AfterCheck` and `AfterIncrement`.
    `LoadUsage` returns `Loaded` of the old state, the stored record or
    `{today, 0}`. `SaveUsage` stores exactly the record it is given.
  - `CanUse`, `AfterCheck` and `AfterIncrement` are stated against an independent reference,
    `UsedToday`: the count recorded for today, and 0 when nothing is stored or
    the record is for another day.
  - Lemmas about runs of calls on one date prove the quota properties.
- `image_handler.dfy` (module `ImageHandler`) models how the image-message
  handler uses the quota. It checks first. It records a use only when the check
  allowed the call and the completion call returned. The lemmas prove that a
  sequential run of messages records at most `DAILY_LIMIT` uses on one date.

"Today" is an input to every operation. The source detects rollover only by
comparing the stored date string with today's string (`usage_counter.py:26`,
`usage_counter.py:34`). So dates are plain strings, and only their equality
matters.

## Model

| member | source | states |
|---|---|---|
| `UsageCounter.UsageStore.SaveUsage` | usage_counter.py:17-19 | the whole stored record becomes `data`, and exactly one write of `data` happens |
| `UsageCounter.UsageStore.LoadUsage` | usage_counter.py:8-15 | returns `Loaded` of the old state, its specification function; with a file present: returns the stored record, leaves storage unchanged and writes nothing; with no file: returns `{today, 0}`, which is now stored and written once |
| `UsageCounter.UsageStore.CanUseApi` | usage_counter.py:24-30 | answer is `CanUse` of the old state and the new stored record is `AfterCheck` of it; for today's record storage is untouched and nothing is written; otherwise the answer is true and exactly one write of `{today, 0}` happens; non-negative counts stay non-negative |
| `UsageCounter.UsageStore.IncrementUsage` | usage_counter.py:32-37 | the new stored record is `AfterIncrement` of the old state; with no file it writes `{today, 0}` and then `{today, 1}`, otherwise it makes one write of the incremented record; non-negative counts stay non-negative |
| `UsageCounter.CanUse` | usage_counter.py:24-30 | allowed iff the count recorded for today is below DAILY_LIMIT; always allowed when nothing is stored or the record is for another day; for today's record exactly `count < DAILY_LIMIT` |
| `UsageCounter.AfterCheck` | usage_counter.py:24-30 | the record left after a check is dated today and holds today's count; today's record is kept as it is; anything else becomes `{today, 0}` |
| `UsageCounter.AfterIncrement` | usage_counter.py:32-37 | the record left after an increment is dated today with one more than today's count, whatever that count is (the limit is not checked); a missing or stale record gives `{today, 1}` |
| `UsageCounter.CheckIdempotent` | usage_counter.py:24-30 | a second check with no use in between leaves the same record and gives the same answer |
| `UsageCounter.OperationsKeepWellFormed` | usage_counter.py:26-37 | from a non-negative count, a check leaves a non-negative count and an increment leaves a count of at least 1 |
| `UsageCounter.RunCountsIncrements` | usage_counter.py:24-37 | after any calls on one date, today's count is the earlier count plus the number of increments, so it never decreases and is never below zero from a non-negative start; storage then holds today's record |
| `UsageCounter.IncrementsFromFresh` | usage_counter.py:32-37 | from `{today, 0}`, `n` increments leave exactly `{today, n}` |
| `UsageCounter.ExhaustedStaysExhausted` | usage_counter.py:24-37 | once today's count is at least DAILY_LIMIT, it stays so through any same-day calls, and every check among them is refused |
| `UsageCounter.LimitReachedAfterDailyLimitIncrements` | usage_counter.py:6-37 | from `{today, 0}`, after DAILY_LIMIT increments the check is refused, and so is every later check that day, whatever calls follow |
| `UsageCounter.ChecksBelowLimitAllowed` | usage_counter.py:30 | after `n` increments from `{today, 0}`, the check is allowed iff `n < DAILY_LIMIT` |
| `UsageCounter.SaveThenLoad` | usage_counter.py:8-19 | writing a record and reading it back yields the same record |
| `ImageHandler.HandleImage` | app.py:54-104 | a message records a use iff the check allowed it and the completion call returned; the record left is today's, with today's count raised by exactly one for a recorded use and unchanged otherwise |
| `ImageHandler.ServeAllWithinQuota` | app.py:55-96 | over a run of messages on one date, today's count rises by exactly the number of recorded uses; none are recorded once the limit is reached, and no more than what remained of the quota are recorded |
| `ImageHandler.AtMostDailyLimitPerDate` | app.py:55-96 | from any non-negative stored state, a sequential run of messages on one date records at most DAILY_LIMIT uses, and today's count ends at or below DAILY_LIMIT unless it already started above it |

## Left out

- JSON encoding and decoding, and the file system itself (`usage_counter.py:9-11`, `usage_counter.py:18-19`): the file is the field `stored`. A file that exists but does not parse has no handling in the code, so it has no variant in the model.
- Reading the clock and formatting the date (`usage_counter.py:21-22`): "today" is a parameter. One operation sees one value of it. In the source, one operation reads the clock several times (`usage_counter.py:13`, `:26-27`, `:34-35`), so a midnight between two of those reads is not modelled. Likewise `ImageHandler.HandleImage` gives the check and the increment of one message the same "today", although the image fetch, OCR and completion call (`app.py:63-95`) run between them. A midnight there would make `increment_usage` reset and store `{next day, 1}`; that case is not modelled.
- Concurrency: the check-then-increment race between overlapping webhook requests is not modelled. The code has no synchronization, and the model is sequential. The per-date bound of `ImageHandler.AtMostDailyLimitPerDate` holds only for sequential calls.
- Everything else in `app.py`: webhook signature checking, fetching the image, OCR, the completion call, replies and writing credentials. All of it is I/O or a call into an external library. The image handler keeps only whether the completion call returned, as one boolean per message.
- Exceptions raised by the file operations themselves (permission denied, disk full): `usage_counter.py` does not handle them, and the model has no I/O that can fail.
- ImageHandler.HandleImage: assumes every write succeeds. In `app.py`, `increment_usage()` runs inside the `try` of `app.py:81` and a failure is caught at `app.py:98`, so a returned completion followed by a failed save records no use there; an exception from `can_use_api` is caught by the webhook callback (`app.py:40`). The model records the use in that case.
