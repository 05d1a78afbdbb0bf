/**
 * Geometry of the vertical day calendar: 07:00 to 19:00 down the page at
 * 80 px per hour, the "now" indicator, the hour gutter labels and the
 * horizontal placement of a job card inside its overlap cluster.
 */
module DayView {
  import opened Options
  import opened Text
  import opened Schedule

  const START_HOUR := 7
  const END_HOUR := 19
  /** Pixels per hour. */
  const HOUR_HEIGHT := 80
  const TOTAL_HOURS := END_HOUR - START_HOUR
  /** Height of the event area in pixels. */
  const GRID_HEIGHT := TOTAL_HOURS * HOUR_HEIGHT
  /** No card is drawn shorter than this. */
  const MIN_CARD_HEIGHT: real := 24.0
  /** Horizontal gap between side-by-side cards, in pixels. */
  const CARD_GAP: real := 4.0

  function Max(a: real, b: real): real { if a >= b then a else b }
  function Min(a: real, b: real): real { if a <= b then a else b }

  lemma GridHeightIs960()
    ensures TOTAL_HOURS == 12 && GRID_HEIGHT == 960
  {
  }

  /**
   * `timeToY`: the offset from the top of the grid of a local clock time,
   * given as its minute of the day. Times before 07:00 stick to the top and
   * times after 19:00 to the bottom; in between, each minute is 4/3 px.
   */
  function TimeToY(minuteOfDay: int): (y: real)
    ensures 0.0 <= y <= GRID_HEIGHT as real
    ensures minuteOfDay <= START_HOUR * 60 ==> y == 0.0
    ensures minuteOfDay >= END_HOUR * 60 ==> y == GRID_HEIGHT as real
    ensures START_HOUR * 60 <= minuteOfDay <= END_HOUR * 60 ==>
              y == (minuteOfDay - START_HOUR * 60) as real * 4.0 / 3.0
  {
    var hours := minuteOfDay as real / 60.0;
    (Max(START_HOUR as real, Min(END_HOUR as real, hours)) - START_HOUR as real) * HOUR_HEIGHT as real
  }

  /** Later times are never drawn higher up. */
  lemma TimeToYMonotone(a: int, b: int)
    requires a <= b
    ensures TimeToY(a) <= TimeToY(b)
  {
    if START_HOUR * 60 <= a && b <= END_HOUR * 60 {
      assert (a - START_HOUR * 60) as real <= (b - START_HOUR * 60) as real;
    }
  }

  /** A clock time moved into the visible window. */
  function ClampToWindow(minuteOfDay: int): (m: int)
    ensures START_HOUR * 60 <= m <= END_HOUR * 60
    ensures START_HOUR * 60 <= minuteOfDay <= END_HOUR * 60 ==> m == minuteOfDay
  {
    if minuteOfDay < START_HOUR * 60 then START_HOUR * 60
    else if minuteOfDay > END_HOUR * 60 then END_HOUR * 60
    else minuteOfDay
  }

  /** Clamping before positioning changes nothing: `timeToY` already clamps. */
  lemma TimeToYClamped(minuteOfDay: int)
    ensures TimeToY(ClampToWindow(minuteOfDay)) == TimeToY(minuteOfDay)
  {
  }

  /**
   * `jobHeight`: the drawn height of a job, the distance between its start
   * and end offsets but never less than 24 px.
   */
  function JobHeight(startMinute: int, endMinute: int): (h: real)
    ensures h >= MIN_CARD_HEIGHT
    ensures TimeToY(endMinute) - TimeToY(startMinute) >= MIN_CARD_HEIGHT ==>
              h == TimeToY(endMinute) - TimeToY(startMinute)
    ensures TimeToY(endMinute) - TimeToY(startMinute) < MIN_CARD_HEIGHT ==> h == MIN_CARD_HEIGHT
    ensures h <= GRID_HEIGHT as real
  {
    Max(TimeToY(endMinute) - TimeToY(startMinute), MIN_CARD_HEIGHT)
  }

  /** A job filling the window exactly spans the whole grid. */
  lemma FullWindowJob()
    ensures TimeToY(START_HOUR * 60) == 0.0
    ensures JobHeight(START_HOUR * 60, END_HOUR * 60) == GRID_HEIGHT as real
  {
  }

  /**
   * The now indicator is drawn unless the current hour (with minutes as a
   * fraction) is before 07:00 or after 19:00.
   */
  function NowIndicatorVisible(minuteOfDay: int): (visible: bool)
    ensures visible <==> START_HOUR * 60 <= minuteOfDay <= END_HOUR * 60
  {
    var nowHour := minuteOfDay as real / 60.0;
    !(nowHour < START_HOUR as real || nowHour > END_HOUR as real)
  }

  /** The gutter labels "07:00", "08:00", …, "19:00", one per hour line. */
  method HourLabels() returns (labels: seq<string>)
    ensures |labels| == END_HOUR - START_HOUR + 1
    ensures forall k :: 0 <= k < |labels| ==> labels[k] == HourLabel(START_HOUR + k)
    ensures forall k :: 0 <= k < |labels| ==> ParseClock(labels[k]) == Some((START_HOUR + k) * 60)
    ensures labels[0] == "07:00" && labels[|labels| - 1] == "19:00"
  {
    labels := [];
    var h := START_HOUR;
    while h <= END_HOUR
      invariant START_HOUR <= h <= END_HOUR + 1
      invariant |labels| == h - START_HOUR
      invariant forall k :: 0 <= k < |labels| ==> labels[k] == HourLabel(START_HOUR + k)
    {
      labels := labels + [HourLabel(h)];
      h := h + 1;
    }
    forall k | 0 <= k < |labels|
      ensures ParseClock(labels[k]) == Some((START_HOUR + k) * 60)
    {
      HourLabelReadsBack(START_HOUR + k);
    }
    assert labels[0] == HourLabel(START_HOUR);
    assert labels[|labels| - 1] == HourLabel(END_HOUR);
    FirstAndLastHourLabels();
  }

  /** `${String(h).padStart(2, "0")}:00`. */
  function HourLabel(h: nat): string
  {
    Pad2(h) + ":00"
  }

  /** The label of a whole hour reads back as that hour. */
  lemma HourLabelReadsBack(h: nat)
    requires h < 100
    ensures ParseClock(HourLabel(h)) == Some(h * 60)
  {
    var t := h * 60;
    assert t / 60 == h && t % 60 == 0;
    assert Pad2(0) == "00";
    assert ClockLabel(t) == Pad2(h) + ":00";
    ClockLabelRoundTrip(t);
  }

  lemma FirstAndLastHourLabels()
    ensures HourLabel(START_HOUR) == "07:00" && HourLabel(END_HOUR) == "19:00"
  {
    assert Decimal(START_HOUR) == "7";
    assert Decimal(1) == "1" && Decimal(9) == "9";
    assert Decimal(END_HOUR) == "19";
  }

  // ── Job card ───────────────────────────────────────────────

  /**
   * Horizontal placement of a card: `calc(left% + leftPx)` and
   * `calc(width% - gap)`, from its column and its cluster's column count.
   */
  datatype CardBox = CardBox(leftPercent: real, leftPx: real, widthPercent: real, widthPx: real)

  function CardGeometry(column: nat, totalColumns: nat): (b: CardBox)
    requires totalColumns > 0
    ensures b.widthPercent * totalColumns as real == 100.0
    ensures column < totalColumns ==>
              b.leftPercent + b.widthPercent == (column + 1) as real * 100.0 / totalColumns as real <= 100.0
    ensures b.leftPx == (if column > 0 then CARD_GAP / 2.0 else 0.0) && b.widthPx == -CARD_GAP
  {
    var widthPercent := 100.0 / totalColumns as real;
    var leftPercent := column as real * widthPercent;
    CardBox(leftPercent, if column > 0 then CARD_GAP / 2.0 else 0.0, widthPercent, -CARD_GAP)
  }

  /** Cards in different columns of one cluster never share horizontal space. */
  lemma CardsSideBySide(c1: nat, c2: nat, totalColumns: nat)
    requires c1 < c2 < totalColumns
    ensures CardGeometry(c1, totalColumns).leftPercent + CardGeometry(c1, totalColumns).widthPercent
            <= CardGeometry(c2, totalColumns).leftPercent
  {
    var g1, g2 := CardGeometry(c1, totalColumns), CardGeometry(c2, totalColumns);
    var w := 100.0 / totalColumns as real;
    assert w > 0.0;
    assert g1.widthPercent == w && g1.leftPercent == c1 as real * w && g2.leftPercent == c2 as real * w;
    StepRight(c1, c2, w, g1.leftPercent, g1.widthPercent, g2.leftPercent);
  }

  /** The card in column `c1` ends where the next column starts, at or before column `c2`. */
  lemma StepRight(c1: nat, c2: nat, w: real, left1: real, width1: real, left2: real)
    requires c1 < c2 && w >= 0.0
    requires left1 == c1 as real * w && width1 == w && left2 == c2 as real * w
    ensures left1 + width1 <= left2
  {
    assert c1 as real * w + w == (c1 + 1) as real * w;
    ScaleMonotone((c1 + 1) as real, c2 as real, w);
  }

  lemma ScaleMonotone(a: real, b: real, w: real)
    requires a <= b && w >= 0.0
    ensures a * w <= b * w
  {
  }

  /** What a card of the given height shows besides its title and time. */
  datatype CardDetail = CardDetail(showCustomer: bool, showLocationAndStaff: bool)

  function CardDetails(height: real, customer: string): (d: CardDetail)
    ensures d.showCustomer <==> customer != "" && height > 60.0
    ensures d.showLocationAndStaff <==> height > 90.0
    ensures d.showLocationAndStaff && customer != "" ==> d.showCustomer
  {
    CardDetail(customer != "" && height > 60.0, height > 90.0)
  }
}
