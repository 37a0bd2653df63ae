/**
 * How the image-message handler uses the quota: it asks first and, only when
 * allowed and the completion call then returns, records one use. Everything
 * else the handler does (fetching the image, OCR, the completion call itself,
 * replying) is reduced to one boolean per message: whether the OCR found
 * text and the completion call then returned normally (false also covers the
 * early return when the OCR finds nothing).
 */
module ImageHandler {
  import opened UsageCounter

  /** The stored record after one image message, and whether a use was recorded. */
  datatype Handled = Handled(stored: Record, recorded: bool)

  /**
   * One image message on `today`; `completed` says whether the completion call
   * returned. A use is recorded exactly when the check allowed the message and
   * the completion returned; the stored record is then today's, with today's
   * count raised by one for a recorded use and unchanged otherwise.
   */
  function HandleImage(stored: Option<Record>, today: string, completed: bool): (h: Handled)
    ensures h.recorded <==> CanUse(stored, today) && completed
    ensures h.stored.date == today
    ensures h.stored.count == UsedToday(stored, today) + (if h.recorded then 1 else 0)
  {
    var allowed := CanUse(stored, today);
    var checked := AfterCheck(stored, today);
    if allowed && completed then Handled(AfterIncrement(Some(checked), today), true)
    else Handled(checked, false)
  }

  /** The stored record after a run of image messages on one date, and how many uses were recorded. */
  datatype Served = Served(stored: Option<Record>, recorded: nat)

  function ServeAll(stored: Option<Record>, today: string, completed: seq<bool>): Served
    decreases |completed|
  {
    if completed == [] then Served(stored, 0)
    else
      var h := HandleImage(stored, today, completed[0]);
      var rest := ServeAll(Some(h.stored), today, completed[1..]);
      Served(rest.stored, rest.recorded + (if h.recorded then 1 else 0))
  }

  /**
   * Over any run of messages on one date, today's count rises by exactly the
   * number of recorded uses, and no use is recorded once the count has
   * reached DAILY_LIMIT: the recorded uses never exceed what was left of the
   * day's quota.
   */
  lemma {:induction false} ServeAllWithinQuota(stored: Option<Record>, today: string, completed: seq<bool>)
    ensures UsedToday(ServeAll(stored, today, completed).stored, today)
         == UsedToday(stored, today) + ServeAll(stored, today, completed).recorded
    ensures UsedToday(stored, today) >= DAILY_LIMIT ==> ServeAll(stored, today, completed).recorded == 0
    ensures UsedToday(stored, today) < DAILY_LIMIT
         ==> ServeAll(stored, today, completed).recorded <= DAILY_LIMIT - UsedToday(stored, today)
    decreases |completed|
  {
    if completed != [] {
      var h := HandleImage(stored, today, completed[0]);
      ServeAllWithinQuota(Some(h.stored), today, completed[1..]);
    }
  }

  /**
   * Whatever was stored before (nothing, another day's record, or a
   * well-formed record for today), no more than DAILY_LIMIT uses are
   * recorded on one date by a sequential run of messages.
   */
  lemma AtMostDailyLimitPerDate(stored: Option<Record>, today: string, completed: seq<bool>)
    requires WellFormed(stored)
    ensures UsedToday(ServeAll(stored, today, completed).stored, today) <= if UsedToday(stored, today) > DAILY_LIMIT then UsedToday(stored, today) else DAILY_LIMIT
    ensures ServeAll(stored, today, completed).recorded <= DAILY_LIMIT
  {
    ServeAllWithinQuota(stored, today, completed);
  }
}
