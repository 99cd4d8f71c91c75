/** Construction of the `mining_orders` row a purchase inserts: the two date
    fields, the fixed status and earnings, and the snapshot of the bot's terms. */
module Orders {
  import opened Options
  import opened Store

  /** `24 * 60 * 60 * 1000`: milliseconds in a day. */
  const MsPerDay: int := 86_400_000

  /** The largest magnitude a valid JavaScript `Date` time value may have
      (the TimeClip operation of ECMA-262). */
  const MaxTimeMs: int := 8_640_000_000_000_000

  /** Whether `ms` is the time value of a valid `Date`. */
  predicate ValidTime(ms: int) {
    -MaxTimeMs <= ms <= MaxTimeMs
  }

  /** `new Date(ms).toISOString()`, keeping the time value instead of its text:
      None stands for the RangeError `toISOString` throws on an Invalid Date. */
  function IsoDate(ms: int): (r: Option<int>)
    ensures r.Some? <==> ValidTime(ms)
    ensures r.Some? ==> r.value == ms
  {
    if ValidTime(ms) then Some(ms) else None
  }

  /** The `settings` object: the bot's terms at purchase time, with a missing
      ROI read as 0 and a missing hash rate kept as null. */
  function Snapshot(bot: Bot): (s: Settings)
    ensures s.price == bot.price && s.duration == bot.durationDays
    ensures bot.roi.None? ==> s.roi == 0
    ensures bot.roi.Some? ==> s.roi == bot.roi.value
    ensures s.power == bot.hashRate
  {
    Settings(bot.roi.GetOr(0), bot.price, bot.durationDays, bot.hashRate)
  }

  /** The row inserted for `uid` buying `bot`. `startClock` is the clock read by
      `new Date()` for `start_date`, `endClock` the one read by `Date.now()` for
      `end_date`. None when either date is out of the `Date` range, where the
      insert payload is never built because `toISOString` throws. */
  function BuildOrder(uid: UserId, bot: Bot, startClock: int, endClock: int): (r: Option<Order>)
    ensures r.None? <==> !ValidTime(startClock) || !ValidTime(endClock + bot.durationDays * MsPerDay)
    ensures r.Some? ==> r.value.userId == uid && r.value.botId == bot.id
    ensures r.Some? ==> r.value.status == Active && r.value.earnings == 0
    ensures r.Some? ==> r.value.settings == Snapshot(bot)
    ensures r.Some? ==> r.value.startDate == startClock
    ensures r.Some? ==> r.value.endDate == endClock + bot.durationDays * MsPerDay
    ensures r.Some? ==>
      r.value.endDate - r.value.startDate == r.value.settings.duration * MsPerDay + (endClock - startClock)
  {
    match IsoDate(startClock)
    case None => None
    case Some(start) =>
      match IsoDate(endClock + bot.durationDays * MsPerDay)
      case None => None
      case Some(end) =>
        Some(Order(uid, bot.id, start, end, Active, 0, Snapshot(bot)))
  }

  /** The number of whole days between an order's start and end dates. */
  function SpanDays(o: Order): int {
    (o.endDate - o.startDate) / MsPerDay
  }

  /** With one clock value for both dates, the order lasts exactly its
      snapshot duration: the date span and the recorded duration agree. */
  lemma SameClockSpan(uid: UserId, bot: Bot, now: int)
    requires BuildOrder(uid, bot, now, now).Some?
    ensures var o := BuildOrder(uid, bot, now, now).value;
      o.endDate - o.startDate == o.settings.duration * MsPerDay && SpanDays(o) == o.settings.duration
  {
  }

  /** With the two clock reads taken in order, the order never runs shorter than
      its snapshot duration: it runs longer by exactly the time between them. */
  lemma TwoClockSpan(uid: UserId, bot: Bot, startClock: int, endClock: int)
    requires startClock <= endClock
    requires BuildOrder(uid, bot, startClock, endClock).Some?
    ensures var o := BuildOrder(uid, bot, startClock, endClock).value;
      o.endDate - o.startDate - o.settings.duration * MsPerDay == endClock - startClock >= 0
  {
  }

  /** A duration of more than 100,000,000 days pushes `end_date` past the last
      valid `Date` for any clock at or after the epoch, so no order is built. */
  lemma OverlongDurationHasNoOrder(uid: UserId, bot: Bot, startClock: int, endClock: int)
    requires endClock >= 0
    requires bot.durationDays > 100_000_000
    ensures BuildOrder(uid, bot, startClock, endClock).None?
  {
  }
}
