/**
 * The dispatch board: one row per staff member, time running left to right
 * from 07:00 to 19:00 in 30-minute slots of 80 px. Every job is a block at
 * the offset of its start time in its staff member's row; overlapping jobs
 * of one row are not split into columns.
 */
module DispatchBoard {
  import opened Options
  import opened Text
  import opened Schedule

  const START_HOUR := 7
  const END_HOUR := 19
  const SLOT_MINUTES := 30
  const TOTAL_SLOTS := ((END_HOUR - START_HOUR) * 60) / SLOT_MINUTES
  /** Pixels per 30-minute slot. */
  const SLOT_WIDTH := 80
  /** Pixels per staff row. */
  const ROW_HEIGHT := 72
  /** Pixels of the frozen staff label column. */
  const LABEL_WIDTH := 200
  const GRID_WIDTH := TOTAL_SLOTS * SLOT_WIDTH
  /** No block is drawn narrower than this. */
  const MIN_BLOCK_WIDTH: real := 24.0
  /** The initial scroll leaves this many pixels of timeline left of "now". */
  const SCROLL_LEAD := 200

  lemma BoardDimensions()
    ensures TOTAL_SLOTS == 24 && GRID_WIDTH == 1920
  {
  }

  // ── Time axis ──────────────────────────────────────────────

  /**
   * `slotLabels`: the "HH:MM" label of every slot, 07:00, 07:30, …, 18:30.
   */
  method SlotLabels() returns (labels: seq<string>)
    ensures |labels| == TOTAL_SLOTS
    ensures forall i :: 0 <= i < |labels| ==> labels[i] == ClockLabel(START_HOUR * 60 + i * SLOT_MINUTES)
    ensures forall i :: 0 <= i < |labels| ==>
              |labels[i]| == 5 && ParseClock(labels[i]) == Some(START_HOUR * 60 + i * SLOT_MINUTES)
    ensures labels[0] == "07:00" && labels[|labels| - 1] == "18:30"
  {
    BoardDimensions();
    labels := [];
    var i := 0;
    while i < TOTAL_SLOTS
      invariant 0 <= i <= TOTAL_SLOTS
      invariant |labels| == i
      invariant forall k :: 0 <= k < i ==> labels[k] == ClockLabel(START_HOUR * 60 + k * SLOT_MINUTES)
    {
      var totalMin := START_HOUR * 60 + i * SLOT_MINUTES;
      var h := totalMin / 60;
      var m := totalMin % 60;
      var text := Pad2(h) + ":" + Pad2(m);
      assert text == ClockLabel(totalMin);
      labels := labels + [text];
      i := i + 1;
    }
    SlotLabelsRead(labels);
    SlotLabelsEnds(labels);
  }

  /** Every slot label has the "HH:MM" shape and reads back as its slot's start. */
  lemma SlotLabelsRead(labels: seq<string>)
    requires |labels| == TOTAL_SLOTS
    requires forall i :: 0 <= i < |labels| ==> labels[i] == ClockLabel(START_HOUR * 60 + i * SLOT_MINUTES)
    ensures forall i :: 0 <= i < |labels| ==>
              |labels[i]| == 5 && ParseClock(labels[i]) == Some(START_HOUR * 60 + i * SLOT_MINUTES)
  {
    BoardDimensions();
    forall k | 0 <= k < |labels|
      ensures |labels[k]| == 5 && ParseClock(labels[k]) == Some(START_HOUR * 60 + k * SLOT_MINUTES)
    {
      ClockLabelRoundTrip(START_HOUR * 60 + k * SLOT_MINUTES);
    }
  }

  /** The axis runs from "07:00" to "18:30". */
  lemma SlotLabelsEnds(labels: seq<string>)
    requires |labels| == TOTAL_SLOTS
    requires forall i :: 0 <= i < |labels| ==> labels[i] == ClockLabel(START_HOUR * 60 + i * SLOT_MINUTES)
    ensures labels[0] == "07:00" && labels[|labels| - 1] == "18:30"
  {
    BoardDimensions();
    assert START_HOUR * 60 + 23 * SLOT_MINUTES == 1110;
    assert labels[0] == ClockLabel(420);
    assert labels[23] == ClockLabel(1110);
    FirstAndLastSlotLabels();
  }

  lemma FirstAndLastSlotLabels()
    ensures ClockLabel(420) == "07:00" && ClockLabel(1110) == "18:30"
  {
    assert 420 / 60 == 7 && 420 % 60 == 0;
    assert Decimal(7) == "7" && Decimal(0) == "0";
    assert PadStart2("7") == "07" && PadStart2("0") == "00";
    assert 1110 / 60 == 18 && 1110 % 60 == 30;
    assert Decimal(1) == "1" && Decimal(8) == "8" && Decimal(3) == "3";
    assert Decimal(18) == "18" && Decimal(30) == "30";
    assert PadStart2("18") == "18" && PadStart2("30") == "30";
  }

  /** The header prints the label of even slots only; the odd ones stay blank. */
  function HeaderText(labels: seq<string>, i: nat): (text: string)
    requires i < |labels|
    ensures i % 2 == 0 ==> text == labels[i]
    ensures i % 2 == 1 ==> text == ""
  {
    if i % 2 == 0 then labels[i] else ""
  }

  /** The slots whose label is printed are the whole hours. */
  lemma PrintedSlotsAreWholeHours(i: nat)
    requires i < TOTAL_SLOTS
    ensures (START_HOUR * 60 + i * SLOT_MINUTES) % 60 == 0 <==> i % 2 == 0
  {
    assert START_HOUR * 60 + i * SLOT_MINUTES == 60 * (START_HOUR + i / 2) + 30 * (i % 2);
  }

  /**
   * `timeToPx`: the horizontal offset of a local clock time, given as its
   * minute of the day. Times before 07:00 stick to the left edge and times
   * after 19:00 to the right; in between, each minute is 8/3 px.
   */
  function TimeToPx(minuteOfDay: int): (x: real)
    ensures 0.0 <= x <= GRID_WIDTH as real
    ensures minuteOfDay <= START_HOUR * 60 ==> x == 0.0
    ensures minuteOfDay >= END_HOUR * 60 ==> x == GRID_WIDTH as real
    ensures START_HOUR * 60 <= minuteOfDay <= END_HOUR * 60 ==>
              x == (minuteOfDay - START_HOUR * 60) as real * 8.0 / 3.0
  {
    var startMins := START_HOUR * 60;
    var endMins := END_HOUR * 60;
    var clamped := if minuteOfDay > endMins then endMins else if minuteOfDay < startMins then startMins else minuteOfDay;
    ((clamped - startMins) as real / SLOT_MINUTES as real) * SLOT_WIDTH as real
  }

  /** Later times are never drawn further left. */
  lemma TimeToPxMonotone(a: int, b: int)
    requires a <= b
    ensures TimeToPx(a) <= TimeToPx(b)
  {
    if START_HOUR * 60 <= a && b <= END_HOUR * 60 {
      assert (a - START_HOUR * 60) as real <= (b - START_HOUR * 60) as real;
    }
  }

  /** The start of every slot lies on the slot grid. */
  lemma SlotStartsOnGrid(i: nat)
    requires i <= TOTAL_SLOTS
    ensures TimeToPx(START_HOUR * 60 + i * SLOT_MINUTES) == (i * SLOT_WIDTH) as real
  {
  }

  /** The now line is drawn unless the current minute of the day is before 07:00 or after 19:00. */
  function NowLineVisible(minuteOfDay: int): (visible: bool)
    ensures visible <==> START_HOUR * 60 <= minuteOfDay <= END_HOUR * 60
  {
    !(minuteOfDay < START_HOUR * 60 || minuteOfDay > END_HOUR * 60)
  }

  /**
   * The scroll position on mount: 200 px of timeline before "now", but never
   * before the start of the grid.
   */
  function InitialScroll(minuteOfDay: int): (scroll: real)
    ensures scroll >= 0.0
    ensures scroll >= TimeToPx(minuteOfDay) - SCROLL_LEAD as real
    ensures scroll == 0.0 || scroll == TimeToPx(minuteOfDay) - SCROLL_LEAD as real
    ensures scroll <= (GRID_WIDTH - SCROLL_LEAD) as real
    ensures minuteOfDay <= 8 * 60 + 15 ==> scroll == 0.0
  {
    var offset := TimeToPx(minuteOfDay) - SCROLL_LEAD as real;
    if 0.0 >= offset then 0.0 else offset
  }

  datatype Direction = Left | Right

  /** The arrow buttons scroll by four slots. */
  function ScrollStep(dir: Direction): (dx: int)
    ensures dx == -4 * SLOT_WIDTH || dx == 4 * SLOT_WIDTH
    ensures dx < 0 <==> dir == Left
  {
    if dir == Left then -SLOT_WIDTH * 4 else SLOT_WIDTH * 4
  }

  /**
   * A step right undoes a step left, and one step scrolls the grid by
   * exactly the width of two hours anywhere inside the working day.
   */
  lemma ScrollStepsCancel(m: int)
    ensures ScrollStep(Left) + ScrollStep(Right) == 0
    ensures START_HOUR * 60 <= m <= END_HOUR * 60 - 120 ==> TimeToPx(m + 120) - TimeToPx(m) == ScrollStep(Right) as real
  {
  }

  // ── Job blocks ─────────────────────────────────────────────

  /** The horizontal extent of a job block in its staff row. */
  datatype Block = Block(left: real, width: real)

  /**
   * A block starts at its job's start time and is as wide as the job is
   * long, but never narrower than 24 px; nothing else of the row matters.
   */
  function BlockGeometry(startMinute: int, endMinute: int): (b: Block)
    ensures b.left == TimeToPx(startMinute)
    ensures b.width >= MIN_BLOCK_WIDTH
    ensures b.left + b.width >= TimeToPx(endMinute)
    ensures TimeToPx(endMinute) - TimeToPx(startMinute) >= MIN_BLOCK_WIDTH ==> b.left + b.width == TimeToPx(endMinute)
    ensures TimeToPx(endMinute) - TimeToPx(startMinute) < MIN_BLOCK_WIDTH ==> b.width == MIN_BLOCK_WIDTH
  {
    var left := TimeToPx(startMinute);
    var diff := TimeToPx(endMinute) - left;
    Block(left, if diff >= MIN_BLOCK_WIDTH then diff else MIN_BLOCK_WIDTH)
  }

  /** The blocks of one staff row, one per job, in the row's job order. */
  function RowBlocks(jobs: seq<Job>, utcOffset: int): (blocks: seq<Block>)
    ensures |blocks| == |jobs|
  {
    seq(|jobs|, k requires 0 <= k < |jobs| =>
      BlockGeometry(MinuteOfDay(jobs[k].start, utcOffset), MinuteOfDay(jobs[k].end, utcOffset)))
  }

  /**
   * No overlap splitting: a block's placement depends on its own job only,
   * so jobs with the same times are drawn on top of each other, and a job
   * ending before it starts still gets a 24 px block at its start.
   */
  lemma RowBlocksIgnoreOverlap(jobs: seq<Job>, utcOffset: int, k: nat, l: nat)
    requires k < |jobs| && l < |jobs|
    requires jobs[k].start == jobs[l].start && jobs[k].end == jobs[l].end
    ensures RowBlocks(jobs, utcOffset)[k] == RowBlocks(jobs, utcOffset)[l]
    ensures RowBlocks(jobs, utcOffset)[k].left == TimeToPx(MinuteOfDay(jobs[k].start, utcOffset))
  {
  }

  /** `s.slice(0, n)`. */
  function Slice(s: string, n: nat): (r: string)
    ensures |r| == if |s| <= n then |s| else n
    ensures StartsWith(s, r)
  {
    if |s| <= n then s else s[..n]
  }

  /** What a job block shows: its (possibly cut) title, the customer line and the time/location line. */
  datatype BlockText = BlockText(title: string, showCustomer: bool, customer: string, showDetails: bool, place: string)

  /**
   * Blocks up to 120 px wide cut the title to 12 characters; the customer
   * needs a non-empty customer and more than 140 px; time and the first part
   * of the location need more than 180 px.
   */
  function BlockContent(jobTitle: string, location: string, width: real): (t: BlockText)
    ensures StartsWith(SplitTitle(jobTitle).title, t.title)
    ensures width > 120.0 ==> t.title == SplitTitle(jobTitle).title
    ensures width <= 120.0 ==> |t.title| <= 12
    ensures t.customer == SplitTitle(jobTitle).customer
    ensures t.showCustomer <==> t.customer != "" && width > 140.0
    ensures t.showDetails <==> width > 180.0
    ensures t.place == LocationHead(location)
  {
    var parts := SplitTitle(jobTitle);
    BlockText(
      if width > 120.0 then parts.title else Slice(parts.title, 12),
      parts.customer != "" && width > 140.0,
      parts.customer,
      width > 180.0,
      LocationHead(location))
  }

  /** A block wider than 180 px shows everything it has. */
  lemma WideBlockShowsAll(jobTitle: string, location: string, width: real)
    requires width > 180.0
    ensures BlockContent(jobTitle, location, width).title == SplitTitle(jobTitle).title
    ensures BlockContent(jobTitle, location, width).showDetails
    ensures BlockContent(jobTitle, location, width).showCustomer <==> SplitTitle(jobTitle).customer != ""
  {
  }

  // ── Rows ───────────────────────────────────────────────────

  /** The jobs assigned to staff member `id`, in input order. */
  function JobsOf(jobs: seq<Job>, id: string): (r: seq<Job>)
    ensures forall j :: j in r <==> j in jobs && j.staffId == id
    ensures |r| <= |jobs|
  {
    if jobs == [] then []
    else
      var init, j := jobs[..|jobs| - 1], jobs[|jobs| - 1];
      assert forall x :: x in jobs <==> x in init || x == j;
      JobsOf(init, id) + (if j.staffId == id then [j] else [])
  }

  /** Filtering distributes over concatenation, so each row keeps the input order. */
  lemma {:induction false} JobsOfAppend(a: seq<Job>, b: seq<Job>, id: string)
    ensures JobsOf(a + b, id) == JobsOf(a, id) + JobsOf(b, id)
    decreases |b|
  {
    if b == [] {
      assert a + b == a;
    } else {
      var b0, z := b[..|b| - 1], b[|b| - 1];
      var tail := if z.staffId == id then [z] else [];
      calc {
        JobsOf(a + b, id);
        == { assert b == b0 + [z]; assert a + b == (a + b0) + [z]; JobsOfSnoc(a + b0, z, id); }
        JobsOf(a + b0, id) + tail;
        == { JobsOfAppend(a, b0, id); }
        JobsOf(a, id) + JobsOf(b0, id) + tail;
        == { assert b == b0 + [z]; JobsOfSnoc(b0, z, id); }
        JobsOf(a, id) + JobsOf(b, id);
      }
    }
  }

  /** One more job extends the row of its own staff member only. */
  lemma JobsOfSnoc(jobs: seq<Job>, z: Job, id: string)
    ensures JobsOf(jobs + [z], id) == JobsOf(jobs, id) + (if z.staffId == id then [z] else [])
  {
    assert (jobs + [z])[..|jobs|] == jobs;
  }

  function StaffIds(staff: seq<StaffMember>): (ids: seq<string>)
    ensures |ids| == |staff|
    ensures forall k :: 0 <= k < |staff| ==> ids[k] == staff[k].id
  {
    seq(|staff|, k requires 0 <= k < |staff| => staff[k].id)
  }

  /**
   * `jobsByStaff`: every staff id maps to the jobs assigned to it, in input
   * order; jobs whose staff id is not on the board are left out.
   */
  method JobsByStaff(staff: seq<StaffMember>, jobs: seq<Job>) returns (rows: map<string, seq<Job>>)
    ensures forall id :: id in rows <==> id in StaffIds(staff)
    ensures forall id :: id in rows ==> rows[id] == JobsOf(jobs, id)
    ensures forall id, j :: id in rows && j in rows[id] ==> j in jobs && j.staffId == id
    ensures forall j :: j in jobs && j.staffId in StaffIds(staff) ==> j in rows[j.staffId]
  {
    rows := map[];
    var i := 0;
    while i < |staff|
      invariant 0 <= i <= |staff|
      invariant forall id :: id in rows <==> id in StaffIds(staff)[..i]
      invariant forall id :: id in rows ==> rows[id] == []
    {
      rows := rows[staff[i].id := []];
      assert StaffIds(staff)[..i + 1] == StaffIds(staff)[..i] + [staff[i].id];
      i := i + 1;
    }
    assert StaffIds(staff)[..i] == StaffIds(staff);
    var k := 0;
    while k < |jobs|
      invariant 0 <= k <= |jobs|
      invariant forall id :: id in rows <==> id in StaffIds(staff)
      invariant forall id :: id in rows ==> rows[id] == JobsOf(jobs[..k], id)
    {
      var job := jobs[k];
      assert jobs[..k + 1] == jobs[..k] + [job];
      assert jobs[..k + 1][..k] == jobs[..k];
      if job.staffId in rows {
        rows := rows[job.staffId := rows[job.staffId] + [job]];
      }
      k := k + 1;
    }
    assert jobs[..k] == jobs;
  }

  /** `jobsByStaff.get(member.id) ?? []`. */
  function MemberJobs(rows: map<string, seq<Job>>, id: string): (r: seq<Job>)
    ensures id in rows ==> r == rows[id]
    ensures id !in rows ==> r == []
  {
    if id in rows then rows[id] else []
  }

  /** The row subtitle's job count: "1 job", otherwise "n jobs". */
  function JobCountLabel(count: nat): (caption: string)
    ensures StartsWith(caption, Decimal(count) + " job")
    ensures |caption| == |Decimal(count)| + (if count == 1 then 4 else 5)
    ensures count != 1 <==> caption[|caption| - 1] == 's'
  {
    Decimal(count) + " job" + (if count != 1 then "s" else "")
  }
}
