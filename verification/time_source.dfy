/** The SD-card time source: the real-time clock installed in a global slot, reading and
    setting its date and time, and the FAT timestamp the file system is given.

    Dates are those of the proleptic Gregorian calendar, as `chrono::NaiveDateTime` keeps
    them; the critical section around each access to the slot is not modelled. */
module TimeSource {
  import opened Wrappers

  /** An unsigned 8-bit field of a timestamp. */
  newtype u8 = x: int | 0 <= x < 0x100

  /** Rust's `as u8` on a wider integer: keep the low eight bits, two's complement for
      negative values, which is Dafny's Euclidean remainder. */
  function ToU8(x: int): (r: u8)
    ensures r as int == x % 0x100
    ensures 0 <= x < 0x100 ==> r as int == x
  {
    (x % 0x100) as u8
  }

  predicate IsLeapYear(year: int)
  {
    year % 4 == 0 && (year % 100 != 0 || year % 400 == 0)
  }

  function DaysInMonth(year: int, month: int): nat
    requires 1 <= month <= 12
  {
    if month == 2 then (if IsLeapYear(year) then 29 else 28)
    else if month == 4 || month == 6 || month == 9 || month == 11 then 30
    else 31
  }

  /** A calendar date and a time of day, fields numbered as people number them: months and
      days from one. */
  datatype DateTime = DateTime(year: int, month: int, day: int, hour: int, minute: int, second: int)
  {
    predicate Valid()
    {
      1 <= month <= 12 && 1 <= day <= DaysInMonth(year, month)
      && 0 <= hour < 24 && 0 <= minute < 60 && 0 <= second < 60
    }
  }

  /** The date-times the clock can hold: `NaiveDateTime` represents no other. */
  type ValidDateTime = d: DateTime | d.Valid() witness DateTime(1970, 1, 1, 0, 0, 0)

  /** The FAT timestamp the file system records: years since 1970 and zero-based month and
      day, each field eight bits wide. */
  datatype Timestamp = Timestamp(yearSince1970: u8, zeroIndexedMonth: u8, zeroIndexedDay: u8,
                                 hours: u8, minutes: u8, seconds: u8)

  /** The timestamp given when no date-time is available: every field zero. */
  const DEFAULT_TIMESTAMP := Timestamp(0, 0, 0, 0, 0, 0)

  /** `get_timestamp` on what `get_date_time` returned. */
  function ToTimestamp(d: Option<ValidDateTime>): (t: Timestamp)
    ensures d.None? ==> t.yearSince1970 == t.zeroIndexedMonth == t.zeroIndexedDay == 0
    ensures d.None? ==> t.hours == t.minutes == t.seconds == 0
    ensures d.Some? ==> t.yearSince1970 as int == (d.value.year - 1970) % 0x100
    ensures d.Some? ==> t.zeroIndexedMonth as int + 1 == d.value.month && t.zeroIndexedDay as int + 1 == d.value.day
    ensures d.Some? ==> t.hours as int == d.value.hour && t.minutes as int == d.value.minute && t.seconds as int == d.value.second
  {
    match d
    case None => DEFAULT_TIMESTAMP
    case Some(dt) =>
      Timestamp(ToU8(dt.year - 1970), ToU8(dt.month - 1), ToU8(dt.day - 1),
                ToU8(dt.hour), ToU8(dt.minute), ToU8(dt.second))
  }

  /** Every field of a timestamp taken from a date-time is in its calendar range. */
  lemma TimestampInRange(dt: ValidDateTime)
    ensures ToTimestamp(Some(dt)).zeroIndexedMonth < 12
    ensures ToTimestamp(Some(dt)).zeroIndexedDay < 31
    ensures ToTimestamp(Some(dt)).hours < 24 && ToTimestamp(Some(dt)).minutes < 60
    ensures ToTimestamp(Some(dt)).seconds < 60
  {
  }

  /** The date-time a timestamp denotes, reading its year as one of 1970 to 2225. */
  function DateOf(t: Timestamp): DateTime
  {
    DateTime(1970 + t.yearSince1970 as int, t.zeroIndexedMonth as int + 1, t.zeroIndexedDay as int + 1,
             t.hours as int, t.minutes as int, t.seconds as int)
  }

  /** A date-time of the years 1970 to 2225 is recovered from its timestamp. */
  lemma DateOfTimestamp(dt: ValidDateTime)
    requires 1970 <= dt.year < 1970 + 0x100
    ensures DateOf(ToTimestamp(Some(dt))) == dt
  {
  }

  /** A timestamp that denotes a valid date-time is the timestamp of that date-time. */
  lemma TimestampOfDate(t: Timestamp)
    requires DateOf(t).Valid()
    ensures ToTimestamp(Some(DateOf(t))) == t
  {
  }

  /** Only the low eight bits of the year difference are kept: years 256 apart give the
      same year field, and years before 1970 wrap around to large values. */
  lemma YearWrapsAround(dt: ValidDateTime, other: ValidDateTime)
    requires other == dt.(year := dt.year + 0x100)
    ensures ToTimestamp(Some(other)).yearSince1970 == ToTimestamp(Some(dt)).yearSince1970
  {
    assert other.year - 1970 == (dt.year - 1970) + 0x100;
  }

  /** The year 1969 is recorded as 255 years after 1970. */
  lemma YearBefore1970(dt: ValidDateTime)
    requires dt.year == 1969
    ensures ToTimestamp(Some(dt)).yearSince1970 == 255
  {
  }

  /** The hardware real-time clock. Its date-time is absent until it has been set. */
  class Rtc {
    var dateTime: Option<ValidDateTime>

    constructor(initial: Option<ValidDateTime>)
      ensures dateTime == initial
    {
      dateTime := initial;
    }

    /** `Rtc::set_date_time`. */
    method SetDateTime(dt: ValidDateTime)
      modifies this
      ensures dateTime == Some(dt)
    {
      dateTime := Some(dt);
    }
  }

  /** The global slot the clock is installed in, empty until the entry point opens it. */
  class RtcSlot {
    var rtc: Rtc?

    constructor()
      ensures rtc == null
    {
      rtc := null;
    }

    method Install(clock: Rtc)
      modifies this
      ensures rtc == clock
    {
      rtc := clock;
    }

    /** `TimeSource::get_date_time`: the clock's date-time, or `None` when no clock is
        installed. */
    function GetDateTime(): (d: Option<ValidDateTime>)
      reads this, rtc
      ensures rtc == null ==> d.None?
      ensures rtc != null ==> d == rtc.dateTime
    {
      if rtc == null then None else rtc.dateTime
    }

    /** `TimeSource::set_date_time`: stores the date-time in the installed clock, or fails
        when there is none. */
    method SetDateTime(dt: ValidDateTime) returns (r: Status)
      modifies rtc
      ensures rtc == old(rtc)
      ensures r == Err <==> rtc == null
      ensures r == Ok ==> GetDateTime() == Some(dt)
    {
      if rtc == null {
        return Err;
      }
      rtc.SetDateTime(dt);
      return Ok;
    }

    /** `get_timestamp`: the timestamp of the current date-time, all zero when there is
        none. */
    method GetTimestamp() returns (t: Timestamp)
      ensures t == ToTimestamp(GetDateTime())
      ensures rtc == null ==> t == DEFAULT_TIMESTAMP
    {
      var d := GetDateTime();
      match d {
        case None =>
          t := DEFAULT_TIMESTAMP;
        case Some(dt) =>
          t := Timestamp(ToU8(dt.year - 1970), ToU8(dt.month - 1), ToU8(dt.day - 1),
                         ToU8(dt.hour), ToU8(dt.minute), ToU8(dt.second));
      }
    }
  }
}
