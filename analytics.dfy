/**
 * The analytics service: recording a visitor event, with its view
 * counters and hourly aggregate, and the overview totals over a period's
 * aggregates. Times are Unix seconds read in UTC.
 */
module Analytics {
  import opened Common
  import Helpers

  const ViewRestaurant: string := "view_restaurant"
  const ViewItem: string := "view_item"
  const Hour: int := 3600

  /** models.CreateAnalyticsEventRequest. */
  datatype EventRequest = EventRequest(
    restaurantId: Uuid,
    eventType: string,
    visitorId: string,
    targetId: Uuid,
    ipAddress: string,
    deviceType: string,
    browser: string,
    os: string,
    country: string,
    city: string)

  /** One row of analytics_events. */
  datatype Event = Event(
    restaurantId: Uuid,
    eventType: string,
    visitorId: string,
    sessionId: Uuid,
    targetId: Uuid,
    ipAddress: NullText,
    deviceType: NullText,
    browser: NullText,
    os: NullText,
    country: NullText,
    city: NullText)

  /** The key of an hourly aggregate: restaurant, day, hour of the day, metric and target. */
  datatype AggregateKey = AggregateKey(restaurantId: Uuid, day: int, hour: int, metricType: string, targetId: Uuid)

  /**
   * The target column TrackEvent writes, as written: `*utils.ToUUIDPtr(id)`.
   * ToUUIDPtr answers nil for the Nil id, so that dereference faults.
   */
  function TargetColumnAsWritten(targetId: Uuid): (r: Result<Uuid>)
    ensures r.Err? <==> targetId == Nil
    ensures r.Ok? ==> r.value == targetId
  {
    var p := Helpers.ToUUIDPtr(targetId);
    if p.None? then Err("invalid memory address or nil pointer dereference") else Ok(p.value)
  }

  /**
   * A restaurant view, which has no target, faults before anything is
   * written, although the counter dispatch below it handles exactly that
   * case (it tests the target against Nil only for item views).
   */
  lemma RestaurantViewWithoutTargetFaults(input: EventRequest)
    requires input.eventType == ViewRestaurant && input.targetId == Nil
    ensures TargetColumnAsWritten(input.targetId).Err?
  {
  }

  /**
   * The target column as evidently intended: the id itself, Nil when there
   * is none, as `utils.Deref(utils.ToUUIDPtr(id))` would give.
   */
  function TargetColumn(targetId: Uuid): (t: Uuid)
    ensures t == targetId
    ensures TargetColumnAsWritten(targetId).Ok? ==> t == TargetColumnAsWritten(targetId).value
  {
    Helpers.DerefToUUIDPtr(targetId);
    Helpers.Deref(Helpers.ToUUIDPtr(targetId), Nil)
  }

  /** The event row: no session, and each optional text NULL when empty. */
  function EventRow(input: EventRequest): (e: Event)
    ensures (e.restaurantId, e.eventType, e.visitorId) == (input.restaurantId, input.eventType, input.visitorId)
    ensures e.sessionId == Nil && e.targetId == input.targetId
    ensures e.ipAddress == Helpers.NonEmptyText(input.ipAddress) && e.deviceType == Helpers.NonEmptyText(input.deviceType)
    ensures e.browser == Helpers.NonEmptyText(input.browser) && e.os == Helpers.NonEmptyText(input.os)
    ensures e.country == Helpers.NonEmptyText(input.country) && e.city == Helpers.NonEmptyText(input.city)
  {
    Event(input.restaurantId, input.eventType, input.visitorId, Nil, TargetColumn(input.targetId),
          Helpers.NonEmptyText(input.ipAddress), Helpers.NonEmptyText(input.deviceType),
          Helpers.NonEmptyText(input.browser), Helpers.NonEmptyText(input.os),
          Helpers.NonEmptyText(input.country), Helpers.NonEmptyText(input.city))
  }

  /** The aggregate an event counts towards: its restaurant, metric and target at the current day and hour. */
  function AggregateKeyOf(input: EventRequest, now: Time): (k: AggregateKey)
    ensures k.day * Day <= now < (k.day + 1) * Day
    ensures 0 <= k.hour < 24 && k.day * Day + k.hour * Hour <= now < k.day * Day + (k.hour + 1) * Hour
    ensures (k.restaurantId, k.metricType, k.targetId) == (input.restaurantId, input.eventType, input.targetId)
  {
    AggregateKey(input.restaurantId, now / Day, (now % Day) / Hour, input.eventType, TargetColumn(input.targetId))
  }

  /** An upsert of value 1: a new aggregate starts at 1, an existing one grows by 1. */
  function Bump(aggregates: map<AggregateKey, int>, k: AggregateKey): (m: map<AggregateKey, int>)
    ensures k in m && m[k] == (if k in aggregates then aggregates[k] + 1 else 1)
    ensures forall j :: j in aggregates && j != k ==> j in m && m[j] == aggregates[j]
    ensures m.Keys == aggregates.Keys + {k}
  {
    aggregates[k := if k in aggregates then aggregates[k] + 1 else 1]
  }

  /** A view counter increment, which changes nothing when the id has no row. */
  function Increment(counts: map<Uuid, nat>, id: Uuid): (m: map<Uuid, nat>)
    ensures m.Keys == counts.Keys
    ensures id in counts ==> m[id] == counts[id] + 1
    ensures forall j :: j in counts && j != id ==> m[j] == counts[j]
  {
    if id in counts then counts[id := counts[id] + 1] else counts
  }

  /** The tables TrackEvent writes. */
  class AnalyticsStore {
    var events: seq<Event>
    var restaurantViews: map<Uuid, nat>
    var itemViews: map<Uuid, nat>
    var aggregates: map<AggregateKey, int>

    constructor(restaurantViews: map<Uuid, nat>, itemViews: map<Uuid, nat>)
      ensures events == [] && aggregates == map[]
      ensures this.restaurantViews == restaurantViews && this.itemViews == itemViews
    {
      events := [];
      this.restaurantViews := restaurantViews;
      this.itemViews := itemViews;
      aggregates := map[];
    }

    /**
     * TrackEvent, with the target column as evidently intended. The event
     * insert (`inserted` says whether the database accepts it) comes first
     * and its failure is the only error; then a restaurant view bumps the
     * restaurant's counter and an item view with a target the item's; then
     * the hourly aggregate is upserted (`upserted`), its failure swallowed.
     */
    method TrackEvent(input: EventRequest, now: Time, inserted: bool, upserted: bool) returns (r: Result<()>)
      modifies this
      ensures r.Ok? <==> inserted
      ensures !inserted ==> events == old(events) && restaurantViews == old(restaurantViews)
                            && itemViews == old(itemViews) && aggregates == old(aggregates)
      ensures inserted ==>
        && events == old(events) + [EventRow(input)]
        && restaurantViews == (if input.eventType == ViewRestaurant then Increment(old(restaurantViews), input.restaurantId)
                               else old(restaurantViews))
        && itemViews == (if input.eventType == ViewItem && input.targetId != Nil then Increment(old(itemViews), input.targetId)
                         else old(itemViews))
        && aggregates == (if upserted then Bump(old(aggregates), AggregateKeyOf(input, now)) else old(aggregates))
    {
      if !inserted {
        return Err("failed to track event");
      }
      events := events + [EventRow(input)];
      if input.eventType == ViewRestaurant {
        restaurantViews := Increment(restaurantViews, input.restaurantId);
      } else if input.eventType == ViewItem && input.targetId != Nil {
        itemViews := Increment(itemViews, input.targetId);
      }
      if upserted {
        aggregates := Bump(aggregates, AggregateKeyOf(input, now));
      }
      return Ok(());
    }
  }

  /** Go's int32. */
  type Int32 = x: int | -0x8000_0000 <= x < 0x8000_0000

  /** Two's-complement wrap-around to 32 bits, as `+=` on an int32 does. */
  function Wrap32(x: int): (r: Int32)
    ensures (x - r) % 0x1_0000_0000 == 0
    ensures -0x8000_0000 <= x < 0x8000_0000 ==> r == x
  {
    (x + 0x8000_0000) % 0x1_0000_0000 - 0x8000_0000
  }

  /** Adding to a wrapped sum and wrapping again is wrapping the exact sum. */
  lemma Wrap32Add(a: int, b: int)
    ensures Wrap32(Wrap32(a) + b) == Wrap32(a + b)
  {
    var w := Wrap32(a);
    var k := (a - w) / 0x1_0000_0000;
    assert a == w + k * 0x1_0000_0000;
    var y := a + b + 0x8000_0000;
    var x := w + b + 0x8000_0000;
    assert y == x + k * 0x1_0000_0000;
    RemainderUnique(y, x / 0x1_0000_0000 + k, x % 0x1_0000_0000);
  }

  /** A value written as a multiple of 2^32 plus a remainder in range has that remainder. */
  lemma RemainderUnique(y: int, q: int, r: int)
    requires y == q * 0x1_0000_0000 + r && 0 <= r < 0x1_0000_0000
    ensures y % 0x1_0000_0000 == r
  {
  }

  /** One row of analytics_aggregates, as GetOverview reads it. */
  datatype AggregateRow = AggregateRow(metricType: string, value: Int32)

  /** The exact sum of the values of the rows of one metric. */
  function MetricSum(rows: seq<AggregateRow>, metric: string): int
  {
    if |rows| == 0 then 0
    else MetricSum(rows[..|rows| - 1], metric) + (if rows[|rows| - 1].metricType == metric then rows[|rows| - 1].value else 0)
  }

  /** The sum over a concatenation is the sum of the parts, so the total does not depend on how rows are grouped. */
  lemma {:induction false} MetricSumAppend(a: seq<AggregateRow>, b: seq<AggregateRow>, metric: string)
    ensures MetricSum(a + b, metric) == MetricSum(a, metric) + MetricSum(b, metric)
    decreases |b|
  {
    if |b| > 0 {
      assert (a + b)[..|a + b| - 1] == a + b[..|b| - 1];
      MetricSumAppend(a, b[..|b| - 1], metric);
    } else {
      assert a + b == a;
    }
  }

  /** Rows of any other metric leave a metric's total as it is. */
  lemma {:induction false} OtherMetricsIgnored(rows: seq<AggregateRow>, other: seq<AggregateRow>, metric: string)
    requires forall k :: 0 <= k < |other| ==> other[k].metricType != metric
    ensures MetricSum(rows + other, metric) == MetricSum(rows, metric)
  {
    MetricSumAppend(rows, other, metric);
    OtherSumZero(other, metric);
  }

  lemma {:induction false} OtherSumZero(other: seq<AggregateRow>, metric: string)
    requires forall k :: 0 <= k < |other| ==> other[k].metricType != metric
    ensures MetricSum(other, metric) == 0
  {
    if |other| > 0 {
      OtherSumZero(other[..|other| - 1], metric);
    }
  }

  /** GetOverview's answer. */
  datatype Overview = Overview(totalViews: Int32, totalMenuViews: Int32, periodStart: Time, periodEnd: Time)

  /**
   * GetOverview: an error fetching the aggregates is returned as it is;
   * otherwise the totals of the restaurant and item views, each summed in
   * an int32 and so wrapped around, and the period echoed back.
   */
  method GetOverview(rows: Result<seq<AggregateRow>>, periodStart: Time, periodEnd: Time) returns (r: Result<Overview>)
    ensures rows.Err? ==> r == Err(rows.error)
    ensures rows.Ok? ==> r == Ok(Overview(Wrap32(MetricSum(rows.value, ViewRestaurant)), Wrap32(MetricSum(rows.value, ViewItem)),
                                     periodStart, periodEnd))
  {
    if rows.Err? {
      return Err(rows.error);
    }
    var aggregates := rows.value;
    var totalViews: Int32 := 0;
    var totalMenuViews: Int32 := 0;
    var i := 0;
    while i < |aggregates|
      invariant 0 <= i <= |aggregates|
      invariant totalViews == Wrap32(MetricSum(aggregates[..i], ViewRestaurant))
      invariant totalMenuViews == Wrap32(MetricSum(aggregates[..i], ViewItem))
    {
      var agg := aggregates[i];
      assert aggregates[..i + 1][..i] == aggregates[..i];
      Wrap32Add(MetricSum(aggregates[..i], ViewRestaurant), if agg.metricType == ViewRestaurant then agg.value else 0);
      Wrap32Add(MetricSum(aggregates[..i], ViewItem), if agg.metricType == ViewItem then agg.value else 0);
      if agg.metricType == ViewRestaurant {
        totalViews := Wrap32(totalViews + agg.value);
      } else if agg.metricType == ViewItem {
        totalMenuViews := Wrap32(totalMenuViews + agg.value);
      }
      i := i + 1;
    }
    assert aggregates[..i] == aggregates;
    return Ok(Overview(totalViews, totalMenuViews, periodStart, periodEnd));
  }
}
