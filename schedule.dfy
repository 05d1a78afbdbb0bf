/**
 * The job and staff records shared by the day view and the dispatch board,
 * the local clock reading both views take from a job's instants, the
 * "HH:MM" labels of their time axes, and the title/customer split both
 * views apply to a job title.
 */
module Schedule {
  import opened Options
  import opened Text

  datatype JobStatus = Completed | InProgress | Upcoming | Cancelled

  /** A scheduled job; `start` and `end` are instants in epoch milliseconds. */
  datatype Job = Job(
    id: string,
    title: string,
    staffId: string,
    start: int,
    end: int,
    status: JobStatus,
    location: string)

  /** A staff member: one row of the dispatch board. */
  datatype StaffMember = StaffMember(id: string, name: string, role: string, avatarInitials: string, color: string)

  const MS_PER_MINUTE := 60000
  const MINUTES_PER_DAY := 1440

  /**
   * `getHours() * 60 + getMinutes()` of an instant, read in a time zone
   * `utcOffset` minutes ahead of UTC: the minute of the local day.
   */
  function MinuteOfDay(instant: int, utcOffset: int): (m: int)
    ensures 0 <= m < MINUTES_PER_DAY
    ensures (m - instant / MS_PER_MINUTE - utcOffset) % MINUTES_PER_DAY == 0
  {
    (instant / MS_PER_MINUTE + utcOffset) % MINUTES_PER_DAY
  }

  // ── "HH:MM" labels ─────────────────────────────────────────

  /** `String(n).padStart(2, "0")`. */
  function Pad2(n: nat): string
  {
    PadStart2(Decimal(n))
  }

  /** `${String(h).padStart(2, "0")}:${String(m).padStart(2, "0")}` for a count of minutes since midnight. */
  function ClockLabel(totalMinutes: nat): string
  {
    Pad2(totalMinutes / 60) + ":" + Pad2(totalMinutes % 60)
  }

  /** Reads an "HH:MM" label back as minutes since midnight. */
  function ParseClock(s: string): Option<nat>
  {
    if |s| == 5 && s[2] == ':' && AllDigits(s[..2]) && AllDigits(s[3..])
    then Some(DigitsValue(s[..2]) * 60 + DigitsValue(s[3..]))
    else None
  }

  /** A number below 100, zero-padded to two digits, reads back as itself. */
  lemma PaddedTwoDigits(n: nat)
    requires n < 100
    ensures |Pad2(n)| == 2
    ensures AllDigits(Pad2(n))
    ensures DigitsValue(Pad2(n)) == n
  {
    var d := Decimal(n);
    DecimalOfTwoDigits(n);
    DecimalRoundTrip(n);
    if |d| == 1 {
      assert PadStart2(d) == ['0'] + d;
      LeadingZero(d);
    }
  }

  /** Every label of a time before 100:00 has the "HH:MM" shape and reads back as the same time. */
  lemma {:induction false} ClockLabelRoundTrip(t: nat)
    requires t < 100 * 60
    ensures |ClockLabel(t)| == 5
    ensures ParseClock(ClockLabel(t)) == Some(t)
  {
    var hours, minutes := t / 60, t % 60;
    assert hours < 100 && minutes < 60 && hours * 60 + minutes == t;
    PaddedFields(hours, minutes);
  }

  /** Two numbers below 100, each zero-padded and joined by ':', read back as hours and minutes. */
  lemma PaddedFields(hours: nat, minutes: nat)
    requires hours < 100 && minutes < 100
    ensures |Pad2(hours) + ":" + Pad2(minutes)| == 5
    ensures ParseClock(Pad2(hours) + ":" + Pad2(minutes)) == Some(hours * 60 + minutes)
  {
    PaddedTwoDigits(hours);
    PaddedTwoDigits(minutes);
    ParseClockOf(Pad2(hours), Pad2(minutes));
  }

  /** A label made of two two-digit fields parses as hours and minutes. */
  lemma ParseClockOf(h: string, m: string)
    requires |h| == 2 && |m| == 2 && AllDigits(h) && AllDigits(m)
    ensures |h + ":" + m| == 5
    ensures ParseClock(h + ":" + m) == Some(DigitsValue(h) * 60 + DigitsValue(m))
  {
    var s := h + ":" + m;
    assert |s| == 5 && s[2] == ':';
    assert s[..2] == h;
    assert s[3..] == m;
    assert AllDigits(s[..2]) && AllDigits(s[3..]);
  }

  // ── Title / customer split ─────────────────────────────────

  /** The en dash that separates a job's title from its customer. */
  const EN_DASH: char := '\U{2013}'

  datatype TitleParts = TitleParts(title: string, customer: string)

  /**
   * The text a job card shows: with an en dash in the title, the trimmed
   * text before the first dash and the trimmed text between the first and
   * the second dash (or the end); without one, the title as it is and no
   * customer.
   */
  function SplitTitle(title: string): (r: TitleParts)
    ensures EN_DASH !in title ==> r == TitleParts(title, "")
    ensures EN_DASH in title ==> Trimmed(r.title) && Trimmed(r.customer)
    ensures EN_DASH in title ==> EN_DASH !in r.title && EN_DASH !in r.customer
  {
    if EN_DASH in title then
      var parts := Split(title, EN_DASH);
      TitleParts(Trim(parts[0]), Trim(parts[1]))
    else
      TitleParts(title, "")
  }

  /**
   * Independent description of the split: for a title `p – c…` with `p`
   * and `c` free of dashes, the parts are `p` and `c`, trimmed.
   */
  lemma SplitTitleOf(p: string, c: string, rest: string)
    requires EN_DASH !in p && EN_DASH !in c
    requires rest == [] || rest[0] == EN_DASH
    ensures SplitTitle(p + [EN_DASH] + c + rest) == TitleParts(Trim(p), Trim(c))
  {
    var title := p + [EN_DASH] + (c + rest);
    assert p + [EN_DASH] + c + rest == title;
    assert EN_DASH in title by {
      assert title[|p|] == EN_DASH;
    }
    FirstTwoPieces(p, c, rest, EN_DASH);
  }

  /** The first two pieces of `p + [sep] + c + rest` are `p` and `c` when `rest` is empty or starts a new piece. */
  lemma FirstTwoPieces(p: string, c: string, rest: string, sep: char)
    requires sep !in p && sep !in c
    requires rest == [] || rest[0] == sep
    ensures |Split(p + [sep] + (c + rest), sep)| >= 2
    ensures Split(p + [sep] + (c + rest), sep)[0] == p
    ensures Split(p + [sep] + (c + rest), sep)[1] == c
  {
    var q := c + rest;
    SplitAfterFirst(p, sep, q);
    FirstPiece(c, rest, sep);
    var parts := Split(p + [sep] + q, sep);
    assert parts == [p] + Split(q, sep);
  }

  /** The first piece of `c + rest` is `c` when `rest` is empty or starts with the separator. */
  lemma FirstPiece(c: string, rest: string, sep: char)
    requires sep !in c
    requires rest == [] || rest[0] == sep
    ensures Split(c + rest, sep)[0] == c
  {
    if rest == [] {
      assert c + rest == c;
    } else {
      assert c + rest == c + [sep] + rest[1..];
      SplitAfterFirst(c, sep, rest[1..]);
    }
  }

  /** `location.split(",")[0]`: the first comma-separated part of an address. */
  function LocationHead(location: string): (r: string)
    ensures ',' !in r
    ensures StartsWith(location, r)
    ensures r == location || (|r| < |location| && location[|r|] == ',')
  {
    Split(location, ',')[0]
  }
}
