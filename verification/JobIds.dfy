// Job ids: a wall-clock stamp in microseconds and a counter that tells calls
// within one microsecond apart.
module JobIds {
  import opened Common

  // ------------------------------------------------------------------
  // Decimal text
  // ------------------------------------------------------------------

  function Digit(d: nat): char
    requires d < 10
  {
    '0' + d as char
  }

  function Dec(n: nat): (s: string)
    ensures |s| >= 1
    ensures n >= 10 ==> |s| >= 2
  {
    if n < 10 then [Digit(n)] else Dec(n / 10) + [Digit(n % 10)]
  }

  /** The last width digits of n, with leading zeros. */
  function Pad(n: nat, width: nat): (s: string)
    ensures |s| == width
  {
    if width == 0 then "" else Pad(n / 10, width - 1) + [Digit(n % 10)]
  }

  function Power10(n: nat): (p: nat)
    ensures p > 0
  {
    if n == 0 then 1 else 10 * Power10(n - 1)
  }

  lemma {:induction false} DecInjective(m: nat, n: nat)
    requires Dec(m) == Dec(n)
    ensures m == n
  {
    var s, t := Dec(m), Dec(n);
    assert s[|s| - 1] == t[|t| - 1];
    if m >= 10 && n >= 10 {
      assert s[..|s| - 1] == Dec(m / 10) && t[..|t| - 1] == Dec(n / 10);
      DecInjective(m / 10, n / 10);
    }
  }

  lemma {:induction false} DecLength(n: nat, width: nat)
    requires width > 0 && n < Power10(width)
    ensures |Dec(n)| <= width
  {
    if n >= 10 {
      assert width > 1 by {
        assert Power10(1) == 10 * Power10(0);
      }
      DecLength(n / 10, width - 1);
    }
  }

  lemma {:induction false} PadInjective(m: nat, n: nat, width: nat)
    requires m < Power10(width) && n < Power10(width) && Pad(m, width) == Pad(n, width)
    ensures m == n
  {
    if width > 0 {
      var s, t := Pad(m, width), Pad(n, width);
      assert s[width - 1] == t[width - 1];
      assert s[..width - 1] == Pad(m / 10, width - 1) && t[..width - 1] == Pad(n / 10, width - 1);
      PadInjective(m / 10, n / 10, width - 1);
    }
  }

  lemma SplitEqual(a: string, b: string, c: string, d: string)
    requires |a| == |c| && a + b == c + d
    ensures a == c && b == d
  {
    assert (a + b)[..|a|] == a && (c + d)[..|c|] == c;
    assert (a + b)[|a|..] == b && (c + d)[|c|..] == d;
  }

  // ------------------------------------------------------------------
  // Times
  // ------------------------------------------------------------------

  datatype Time = Time(year: nat, month: nat, day: nat, hour: nat, minute: nat, second: nat, micro: nat)

  predicate Leap(year: nat) {
    year % 4 == 0 && (year % 100 != 0 || year % 400 == 0)
  }

  function DaysIn(year: nat, month: nat): nat {
    if month == 2 then (if Leap(year) then 29 else 28)
    else if month == 4 || month == 6 || month == 9 || month == 11 then 30
    else 31
  }

  /** A date and time of the proleptic calendar with a four-digit year. */
  predicate ValidTime(t: Time) {
    && 1000 <= t.year <= 9999 && 1 <= t.month <= 12 && 1 <= t.day <= DaysIn(t.year, t.month)
    && t.hour < 24 && t.minute < 60 && t.second < 60 && t.micro < 1000000
  }

  /** One microsecond later; None is the library's overflow at the end of year 9999. */
  function NextMicro(t: Time): (r: Option<Time>)
    requires ValidTime(t)
    ensures r.Some? ==> ValidTime(r.value)
  {
    if t.micro < 999999 then Some(t.(micro := t.micro + 1))
    else if t.second < 59 then Some(t.(second := t.second + 1, micro := 0))
    else if t.minute < 59 then Some(t.(minute := t.minute + 1, second := 0, micro := 0))
    else if t.hour < 23 then Some(t.(hour := t.hour + 1, minute := 0, second := 0, micro := 0))
    else if t.day < DaysIn(t.year, t.month) then Some(Time(t.year, t.month, t.day + 1, 0, 0, 0, 0))
    else if t.month < 12 then Some(Time(t.year, t.month + 1, 1, 0, 0, 0, 0))
    else if t.year < 9999 then Some(Time(t.year + 1, 1, 1, 0, 0, 0, 0))
    else None
  }

  function DayKey(t: Time): nat { (t.year * 16 + t.month) * 32 + t.day }

  function Rest(t: Time): nat { ((t.hour * 60 + t.minute) * 60 + t.second) * 1000000 + t.micro }

  /** Chronological order. */
  predicate Before(t: Time, u: Time) {
    DayKey(t) < DayKey(u) || (DayKey(t) == DayKey(u) && Rest(t) < Rest(u))
  }

  predicate NotAfter(t: Time, u: Time) {
    Before(t, u) || t == u
  }

  lemma BeforeIsTotal(t: Time, u: Time)
    requires ValidTime(t) && ValidTime(u)
    ensures Before(t, u) || t == u || Before(u, t)
    ensures !(Before(t, u) && Before(u, t)) && !Before(t, t)
  {
  }

  /** Nothing lies between a time and its next microsecond. */
  lemma NextIsNext(t: Time, u: Time)
    requires ValidTime(t) && ValidTime(u) && NextMicro(t).Some?
    ensures Before(t, NextMicro(t).value)
    ensures NotAfter(t, u) && Before(u, NextMicro(t).value) ==> u == t
  {
  }

  function DateStamp(t: Time): (s: string)
    ensures |s| == 8
  {
    Pad(t.year, 4) + (Pad(t.month, 2) + Pad(t.day, 2))
  }

  function SecondStamp(t: Time): (s: string)
    ensures |s| == 8
  {
    Pad(t.second, 2) + Pad(t.micro, 6)
  }

  function ClockStamp(t: Time): (s: string)
    ensures |s| == 12
  {
    Pad(t.hour, 2) + (Pad(t.minute, 2) + SecondStamp(t))
  }

  /** strftime with %Y%m%d%H%M%S%f. */
  function Stamp(t: Time): (s: string)
    ensures |s| == 20
  {
    DateStamp(t) + ClockStamp(t)
  }

  lemma Powers()
    ensures Power10(2) == 100 && Power10(4) == 10000 && Power10(5) == 100000 && Power10(6) == 1000000
  {
    assert Power10(1) == 10 * Power10(0);
    assert Power10(3) == 10 * Power10(2);
    assert Power10(5) == 10 * Power10(4);
  }

  lemma DateInjective(t: Time, u: Time)
    requires ValidTime(t) && ValidTime(u) && DateStamp(t) == DateStamp(u)
    ensures t.year == u.year && t.month == u.month && t.day == u.day
  {
    Powers();
    SplitEqual(Pad(t.year, 4), Pad(t.month, 2) + Pad(t.day, 2), Pad(u.year, 4), Pad(u.month, 2) + Pad(u.day, 2));
    SplitEqual(Pad(t.month, 2), Pad(t.day, 2), Pad(u.month, 2), Pad(u.day, 2));
    PadInjective(t.year, u.year, 4);
    PadInjective(t.month, u.month, 2);
    PadInjective(t.day, u.day, 2);
  }

  lemma ClockInjective(t: Time, u: Time)
    requires ValidTime(t) && ValidTime(u) && ClockStamp(t) == ClockStamp(u)
    ensures t.hour == u.hour && t.minute == u.minute && t.second == u.second && t.micro == u.micro
  {
    Powers();
    SplitEqual(Pad(t.hour, 2), Pad(t.minute, 2) + SecondStamp(t), Pad(u.hour, 2), Pad(u.minute, 2) + SecondStamp(u));
    SplitEqual(Pad(t.minute, 2), SecondStamp(t), Pad(u.minute, 2), SecondStamp(u));
    SplitEqual(Pad(t.second, 2), Pad(t.micro, 6), Pad(u.second, 2), Pad(u.micro, 6));
    PadInjective(t.hour, u.hour, 2);
    PadInjective(t.minute, u.minute, 2);
    PadInjective(t.second, u.second, 2);
    PadInjective(t.micro, u.micro, 6);
  }

  lemma StampInjective(t: Time, u: Time)
    requires ValidTime(t) && ValidTime(u) && Stamp(t) == Stamp(u)
    ensures t == u
  {
    hide DateStamp, ClockStamp;
    SplitEqual(DateStamp(t), ClockStamp(t), DateStamp(u), ClockStamp(u));
    DateInjective(t, u);
    ClockInjective(t, u);
  }

  // ------------------------------------------------------------------
  // What a stamp says
  // ------------------------------------------------------------------

  /** Reads a decimal text. */
  function NumberOf(s: string): int {
    if s == "" then 0 else 10 * NumberOf(s[..|s| - 1]) + (s[|s| - 1] as int - '0' as int)
  }

  lemma {:induction false} PadReads(n: nat, width: nat)
    requires n < Power10(width)
    ensures NumberOf(Pad(n, width)) == n
  {
    if width > 0 {
      PadReads(n / 10, width - 1);
      assert Pad(n, width)[..width - 1] == Pad(n / 10, width - 1);
    }
  }

  lemma {:induction false} DecReads(n: nat)
    ensures NumberOf(Dec(n)) == n
    ensures n > 0 ==> Dec(n)[0] != '0'
  {
    if n >= 10 {
      DecReads(n / 10);
      assert Dec(n)[..|Dec(n)| - 1] == Dec(n / 10);
    }
  }

  lemma ConcatParts(a: string, b: string)
    ensures (a + b)[..|a|] == a && (a + b)[|a|..] == b
  {
  }

  lemma DateReads(t: Time)
    requires ValidTime(t)
    ensures var s := DateStamp(t);
      NumberOf(s[..4]) == t.year && NumberOf(s[4..6]) == t.month && NumberOf(s[6..8]) == t.day
  {
    Powers();
    PadReads(t.year, 4);
    PadReads(t.month, 2);
    PadReads(t.day, 2);
    var s := DateStamp(t);
    assert s[..4] == Pad(t.year, 4) && s[4..6] == Pad(t.month, 2) && s[6..8] == Pad(t.day, 2);
  }

  lemma ClockReads(t: Time)
    requires ValidTime(t)
    ensures var s := ClockStamp(t);
      && NumberOf(s[..2]) == t.hour && NumberOf(s[2..4]) == t.minute
      && NumberOf(s[4..6]) == t.second && NumberOf(s[6..12]) == t.micro
  {
    Powers();
    PadReads(t.hour, 2);
    PadReads(t.minute, 2);
    PadReads(t.second, 2);
    PadReads(t.micro, 6);
    var s := ClockStamp(t);
    assert s[..2] == Pad(t.hour, 2) && s[2..4] == Pad(t.minute, 2);
    assert s[4..6] == Pad(t.second, 2) && s[6..12] == Pad(t.micro, 6);
  }

  /** Year, month, day, hour, minute, second and microsecond can be read off a stamp, in this order. */
  lemma StampReads(t: Time)
    requires ValidTime(t)
    ensures var s := Stamp(t);
      && NumberOf(s[..4]) == t.year && NumberOf(s[4..6]) == t.month && NumberOf(s[6..8]) == t.day
      && NumberOf(s[8..10]) == t.hour && NumberOf(s[10..12]) == t.minute
      && NumberOf(s[12..14]) == t.second && NumberOf(s[14..20]) == t.micro
  {
    DateReads(t);
    ClockReads(t);
    hide DateStamp, ClockStamp, NumberOf;
    var s, d, c := Stamp(t), DateStamp(t), ClockStamp(t);
    assert s[..4] == d[..4] && s[4..6] == d[4..6] && s[6..8] == d[6..8];
    assert s[8..10] == c[..2] && s[10..12] == c[2..4] && s[12..14] == c[4..6] && s[14..20] == c[6..12];
  }

  /** The order of texts: the first difference decides. */
  ghost predicate TextBefore(a: string, b: string) {
    exists k: nat :: DiffersAt(a, b, k)
  }

  predicate DiffersAt(a: string, b: string, k: nat) {
    k < |a| && k < |b| && a[..k] == b[..k] && a[k] < b[k]
  }

  lemma BeforeOneWay(a: string, b: string)
    ensures !(TextBefore(a, b) && TextBefore(b, a)) && !TextBefore(a, a)
  {
    if TextBefore(a, b) && TextBefore(b, a) {
      var k: nat :| DiffersAt(a, b, k);
      var m: nat :| DiffersAt(b, a, m);
      DiffersOnce(a, b, k, m);
    }
  }

  lemma DiffersOnce(a: string, b: string, k: nat, m: nat)
    requires DiffersAt(a, b, k)
    ensures !DiffersAt(b, a, m)
  {
    if m < k {
      assert a[..k][m] == b[..k][m];
    }
  }

  lemma BeforeInFront(a: string, b: string, c: string, d: string)
    requires |a| == |c| && TextBefore(a, c)
    ensures TextBefore(a + b, c + d)
  {
    var k: nat :| DiffersAt(a, c, k);
    assert (a + b)[..k] == a[..k] && (c + d)[..k] == c[..k];
    assert DiffersAt(a + b, c + d, k);
  }

  lemma BeforeBehind(a: string, b: string, d: string)
    requires TextBefore(b, d)
    ensures TextBefore(a + b, a + d)
  {
    var k: nat :| DiffersAt(b, d, k);
    assert (a + b)[..|a| + k] == a + b[..k] && (a + d)[..|a| + k] == a + d[..k];
    assert DiffersAt(a + b, a + d, |a| + k);
  }

  lemma {:induction false} PadOrder(m: nat, n: nat, width: nat)
    requires m < n < Power10(width)
    ensures TextBefore(Pad(m, width), Pad(n, width))
  {
    if width > 0 {
      var a, b := Pad(m / 10, width - 1), Pad(n / 10, width - 1);
      if m / 10 < n / 10 {
        PadOrder(m / 10, n / 10, width - 1);
        BeforeInFront(a, [Digit(m % 10)], b, [Digit(n % 10)]);
      } else {
        assert m / 10 == n / 10;
        assert DiffersAt(Pad(m, width), Pad(n, width), width - 1);
      }
    }
  }

  lemma DateOrder(t: Time, u: Time)
    requires ValidTime(t) && ValidTime(u) && DayKey(t) < DayKey(u)
    ensures TextBefore(DateStamp(t), DateStamp(u))
  {
    Powers();
    hide Pad, TextBefore, Power10;
    if t.year < u.year {
      PadOrder(t.year, u.year, 4);
      BeforeInFront(Pad(t.year, 4), Pad(t.month, 2) + Pad(t.day, 2), Pad(u.year, 4), Pad(u.month, 2) + Pad(u.day, 2));
    } else {
      assert t.year == u.year;
      if t.month < u.month {
        PadOrder(t.month, u.month, 2);
        BeforeInFront(Pad(t.month, 2), Pad(t.day, 2), Pad(u.month, 2), Pad(u.day, 2));
      } else {
        assert t.month == u.month && t.day < u.day;
        PadOrder(t.day, u.day, 2);
        BeforeBehind(Pad(t.month, 2), Pad(t.day, 2), Pad(u.day, 2));
      }
      BeforeBehind(Pad(t.year, 4), Pad(t.month, 2) + Pad(t.day, 2), Pad(u.month, 2) + Pad(u.day, 2));
    }
  }

  lemma SecondOrder(t: Time, u: Time)
    requires ValidTime(t) && ValidTime(u)
    requires t.second < u.second || (t.second == u.second && t.micro < u.micro)
    ensures TextBefore(SecondStamp(t), SecondStamp(u))
  {
    Powers();
    hide Pad, TextBefore, Power10;
    if t.second < u.second {
      PadOrder(t.second, u.second, 2);
      BeforeInFront(Pad(t.second, 2), Pad(t.micro, 6), Pad(u.second, 2), Pad(u.micro, 6));
    } else {
      PadOrder(t.micro, u.micro, 6);
      BeforeBehind(Pad(t.second, 2), Pad(t.micro, 6), Pad(u.micro, 6));
    }
  }

  lemma ClockOrder(t: Time, u: Time)
    requires ValidTime(t) && ValidTime(u) && Rest(t) < Rest(u)
    ensures TextBefore(ClockStamp(t), ClockStamp(u))
  {
    Powers();
    hide Pad, TextBefore, Power10, SecondStamp;
    if t.hour < u.hour {
      PadOrder(t.hour, u.hour, 2);
      BeforeInFront(Pad(t.hour, 2), Pad(t.minute, 2) + SecondStamp(t), Pad(u.hour, 2), Pad(u.minute, 2) + SecondStamp(u));
    } else {
      assert t.hour == u.hour;
      if t.minute < u.minute {
        PadOrder(t.minute, u.minute, 2);
        BeforeInFront(Pad(t.minute, 2), SecondStamp(t), Pad(u.minute, 2), SecondStamp(u));
      } else {
        assert t.minute == u.minute;
        SecondOrder(t, u);
        BeforeBehind(Pad(t.minute, 2), SecondStamp(t), SecondStamp(u));
      }
      BeforeBehind(Pad(t.hour, 2), Pad(t.minute, 2) + SecondStamp(t), Pad(u.minute, 2) + SecondStamp(u));
    }
  }

  lemma LaterIsAfter(t: Time, u: Time)
    requires ValidTime(t) && ValidTime(u) && Before(t, u)
    ensures TextBefore(Stamp(t), Stamp(u))
  {
    if DayKey(t) < DayKey(u) {
      DateOrder(t, u);
      BeforeInFront(DateStamp(t), ClockStamp(t), DateStamp(u), ClockStamp(u));
    } else {
      ClockOrder(t, u);
      assert t.year == u.year && t.month == u.month && t.day == u.day;
      BeforeBehind(DateStamp(t), ClockStamp(t), ClockStamp(u));
    }
  }

  /** Stamps compare as texts the way their times do. */
  lemma StampOrderIff(t: Time, u: Time)
    requires ValidTime(t) && ValidTime(u)
    ensures TextBefore(Stamp(t), Stamp(u)) <==> Before(t, u)
  {
    hide Stamp, TextBefore;
    BeforeIsTotal(t, u);
    BeforeOneWay(Stamp(t), Stamp(u));
    if Before(t, u) {
      LaterIsAfter(t, u);
    } else if Before(u, t) {
      LaterIsAfter(u, t);
    }
  }

  // ------------------------------------------------------------------
  // The generator
  // ------------------------------------------------------------------

  const MAX: nat := 99999

  /** What an id is made of. */
  datatype Mark = Mark(time: Time, value: nat)

  function Text(m: Mark): string {
    Stamp(m.time) + Dec(m.value)
  }

  lemma TextInjective(m: Mark, n: Mark)
    requires ValidTime(m.time) && ValidTime(n.time) && Text(m) == Text(n)
    ensures m == n
  {
    hide Stamp;
    SplitEqual(Stamp(m.time), Dec(m.value), Stamp(n.time), Dec(n.value));
    StampInjective(m.time, n.time);
    DecInjective(m.value, n.value);
  }

  /** An id is its stamp followed by the counter, both readable. */
  lemma TextReads(m: Mark)
    ensures Text(m)[..20] == Stamp(m.time) && NumberOf(Text(m)[20..]) == m.value
  {
    ConcatParts(Stamp(m.time), Dec(m.value));
    DecReads(m.value);
  }

  /** The column that stores job ids holds 25 characters. */
  lemma TextFits(m: Mark)
    requires m.value <= MAX
    ensures 21 <= |Text(m)| <= 25
  {
    Powers();
    DecLength(m.value, 5);
  }

  /** The generator after issuing last, the first time or later; None is the overflow of the clock's calendar. */
  function Next(last: Option<Mark>, now: Time): Option<Mark>
    requires ValidTime(now)
  {
    if last.Some? && last.value.time == now then
      if last.value.value < MAX then Some(Mark(now, last.value.value + 1))
      else
        match NextMicro(now)
        case Some(t) => Some(Mark(t, 0))
        case None => None
    else Some(Mark(now, 0))
  }

  class JobIdGenerator {
    var value: nat
    var preTimestamp: Option<Time>

    constructor ()
      ensures value == 0 && preTimestamp == None
    {
      value, preTimestamp := 0, None;
    }

    /** The last id's parts. */
    function Last(): Option<Mark>
      reads this
    {
      match preTimestamp
      case None => None
      case Some(t) => Some(Mark(t, value))
    }

    /** next_id under the lock, with the clock reading taken before it. */
    method NextId(now: Time) returns (id: Option<string>)
      requires ValidTime(now)
      modifies this
      ensures var m := Next(old(Last()), now);
        if m.Some? then Last() == m && id == Some(Text(m.value)) else Last() == old(Last()) && id == None
    {
      var time := now;
      if preTimestamp == Some(now) {
        if value < MAX {
          value := value + 1;
        } else {
          var next := NextMicro(now);
          if next.None? {
            return None;
          }
          time := next.value;
          preTimestamp := Some(time);
          value := 0;
        }
      } else {
        preTimestamp := Some(time);
        value := 0;
      }
      return Some(Stamp(time) + Dec(value));
    }
  }

  // ------------------------------------------------------------------
  // Sequences of calls
  // ------------------------------------------------------------------

  /** marks are the parts issued by successive calls with the given clock readings. */
  ghost predicate Issued(clock: seq<Time>, marks: seq<Mark>) {
    && |clock| == |marks|
    && forall i :: 0 <= i < |clock| ==> IssuedAt(clock, marks, i)
  }

  predicate IssuedAt(clock: seq<Time>, marks: seq<Mark>, i: nat)
    requires i < |clock| == |marks|
  {
    ValidTime(clock[i]) && Next(Previous(marks, i), clock[i]) == Some(marks[i])
  }

  function Previous(marks: seq<Mark>, i: nat): Option<Mark>
    requires i <= |marks|
  {
    if i == 0 then None else Some(marks[i - 1])
  }

  /** Readings never go back, in lock order. */
  ghost predicate Nondecreasing(clock: seq<Time>) {
    forall i, j :: 0 <= i < j < |clock| ==> NotAfter(clock[i], clock[j])
  }

  /** No call reads a clock behind the last time the generator used. */
  ghost predicate NeverBehind(clock: seq<Time>, marks: seq<Mark>)
    requires |clock| == |marks|
  {
    forall i :: 0 < i < |clock| ==> NotAfter(marks[i - 1].time, clock[i])
  }

  predicate Smaller(m: Mark, n: Mark) {
    Before(m.time, n.time) || (m.time == n.time && m.value < n.value)
  }

  lemma {:induction false} IssuedValid(clock: seq<Time>, marks: seq<Mark>, i: nat)
    requires Issued(clock, marks) && i < |marks|
    ensures ValidTime(marks[i].time) && marks[i].value <= MAX
  {
    assert IssuedAt(clock, marks, i);
    if i > 0 {
      IssuedValid(clock, marks, i - 1);
    }
  }

  lemma SmallerStep(clock: seq<Time>, marks: seq<Mark>, i: nat)
    requires Issued(clock, marks) && 0 < i < |marks| && NotAfter(marks[i - 1].time, clock[i])
    ensures Smaller(marks[i - 1], marks[i])
  {
    IssuedValid(clock, marks, i - 1);
    assert IssuedAt(clock, marks, i);
    if NextMicro(clock[i]).Some? {
      NextIsNext(clock[i], clock[i]);
    }
  }

  lemma SmallerTransitive(a: Mark, b: Mark, c: Mark)
    requires Smaller(a, b) && Smaller(b, c)
    ensures Smaller(a, c) && a != c
  {
  }

  /** Then the (time, counter) pairs strictly increase. */
  lemma {:induction false} MarksIncrease(clock: seq<Time>, marks: seq<Mark>, i: nat, j: nat)
    requires Issued(clock, marks) && NeverBehind(clock, marks) && i < j < |marks|
    ensures Smaller(marks[i], marks[j])
    decreases j
  {
    SmallerStep(clock, marks, j);
    if i < j - 1 {
      MarksIncrease(clock, marks, i, j - 1);
      SmallerTransitive(marks[i], marks[j - 1], marks[j]);
    }
  }

  ghost predicate TextsDistinct(marks: seq<Mark>) {
    forall i, j :: 0 <= i < j < |marks| ==> Text(marks[i]) != Text(marks[j])
  }

  /** With readings that never go back, the ids are pairwise distinct exactly when no call finds the clock behind the
      generator, which it can see before it issues. */
  lemma DistinctIff(clock: seq<Time>, marks: seq<Mark>)
    requires Issued(clock, marks) && Nondecreasing(clock)
    ensures TextsDistinct(marks) <==> NeverBehind(clock, marks)
  {
    if NeverBehind(clock, marks) {
      forall i, j | 0 <= i < j < |marks| ensures Text(marks[i]) != Text(marks[j]) {
        MarksIncrease(clock, marks, i, j);
        IssuedValid(clock, marks, i);
        IssuedValid(clock, marks, j);
        if Text(marks[i]) == Text(marks[j]) {
          TextInjective(marks[i], marks[j]);
        }
      }
    } else {
      var i :| 0 < i < |clock| && !NotAfter(marks[i - 1].time, clock[i]);
      BehindRepeats(clock, marks, i);
    }
  }

  /** The generator's time is the last reading, or one microsecond later after an overflow; and at the reading's own
      time the counter 0 was issued. */
  lemma {:induction false} Origin(clock: seq<Time>, marks: seq<Mark>, i: nat) returns (k: nat)
    requires Issued(clock, marks) && Nondecreasing(clock) && i < |marks|
    ensures ValidTime(clock[i])
    ensures marks[i].time == clock[i] || NextMicro(clock[i]) == Some(marks[i].time)
    ensures k <= i && marks[k] == Mark(clock[i], 0)
  {
    assert IssuedAt(clock, marks, i);
    if i == 0 || marks[i - 1].time != clock[i] {
      k := i;
    } else {
      k := First(clock, marks, i - 1);
    }
  }

  /** Every time the generator has used was first issued with counter 0. */
  lemma {:induction false} First(clock: seq<Time>, marks: seq<Mark>, i: nat) returns (k: nat)
    requires Issued(clock, marks) && i < |marks|
    ensures k <= i && marks[k] == Mark(marks[i].time, 0)
  {
    assert IssuedAt(clock, marks, i);
    if marks[i].value == 0 {
      k := i;
    } else {
      k := First(clock, marks, i - 1);
    }
  }

  /** A call that finds the clock behind repeats an earlier id. */
  lemma BehindRepeats(clock: seq<Time>, marks: seq<Mark>, i: nat)
    requires Issued(clock, marks) && Nondecreasing(clock) && 0 < i < |clock|
    requires !NotAfter(marks[i - 1].time, clock[i])
    ensures !TextsDistinct(marks)
  {
    IssuedValid(clock, marks, i - 1);
    assert IssuedAt(clock, marks, i);
    var k := Origin(clock, marks, i - 1);
    BeforeIsTotal(marks[i - 1].time, clock[i]);
    assert NotAfter(clock[i - 1], clock[i]);
    assert IssuedAt(clock, marks, i - 1);
    if NextMicro(clock[i - 1]).Some? {
      NextIsNext(clock[i - 1], clock[i]);
    }
    assert clock[i] == clock[i - 1];
    assert marks[i] == marks[k] == Mark(clock[i], 0);
  }

  /** How many of the first n calls read the time t. */
  function Calls(clock: seq<Time>, t: Time): nat {
    if clock == [] then 0
    else Calls(clock[..|clock| - 1], t) + if clock[|clock| - 1] == t then 1 else 0
  }

  /** With at most 100000 calls per clock reading the generator never runs ahead, so the ids are distinct. */
  lemma EnoughPerMicrosecond(clock: seq<Time>, marks: seq<Mark>)
    requires Issued(clock, marks) && Nondecreasing(clock)
    requires forall i :: 0 <= i < |clock| ==> Calls(clock, clock[i]) <= MAX + 1
    ensures NeverBehind(clock, marks) && TextsDistinct(marks)
  {
    forall i | 0 < i < |clock| ensures NotAfter(marks[i - 1].time, clock[i]) {
      CounterCounts(clock, marks, i - 1);
      assert NotAfter(clock[i - 1], clock[i]);
    }
    DistinctIff(clock, marks);
  }

  lemma {:induction false} CallsPrefix(clock: seq<Time>, t: Time, n: nat)
    requires n <= |clock|
    ensures Calls(clock[..n], t) <= Calls(clock, t)
    decreases |clock|
  {
    if n == |clock| {
      assert clock[..n] == clock;
    } else {
      assert clock[..|clock| - 1][..n] == clock[..n];
      CallsPrefix(clock[..|clock| - 1], t, n);
    }
  }

  /** Then the counter is one less than the number of calls that read this time so far. */
  lemma {:induction false} CounterCounts(clock: seq<Time>, marks: seq<Mark>, i: nat)
    requires Issued(clock, marks) && Nondecreasing(clock) && i < |marks|
    requires forall k :: 0 <= k < |clock| ==> Calls(clock, clock[k]) <= MAX + 1
    ensures marks[i].time == clock[i] && marks[i].value + 1 == Calls(clock[..i + 1], clock[i])
  {
    hide NextMicro, NotAfter, ValidTime, Nondecreasing;
    assert IssuedAt(clock, marks, i);
    assert clock[..i + 1][..i] == clock[..i];
    if i == 0 {
      assert clock[..1][..0] == [];
    } else {
      CounterCounts(clock, marks, i - 1);
      assert IssuedAt(clock, marks, i - 1);
      if clock[i - 1] == clock[i] {
        CallsPrefix(clock, clock[i], i + 1);
      } else {
        NotSeen(clock, marks, i);
      }
    }
  }

  /** A reading later than the one before is new. */
  lemma NotSeen(clock: seq<Time>, marks: seq<Mark>, i: nat)
    requires Issued(clock, marks) && Nondecreasing(clock) && 0 < i < |clock| && clock[i - 1] != clock[i]
    ensures Calls(clock[..i], clock[i]) == 0
  {
    forall k | 0 <= k < i ensures clock[k] != clock[i] {
      assert NotAfter(clock[k], clock[i - 1]) || k == i - 1;
      assert NotAfter(clock[i - 1], clock[i]);
    }
    NoCalls(clock[..i], clock[i]);
  }

  lemma {:induction false} NoCalls(clock: seq<Time>, t: Time)
    requires t !in clock
    ensures Calls(clock, t) == 0
  {
    if clock != [] {
      NoCalls(clock[..|clock| - 1], t);
    }
  }

  /** The bound is sharp up to one: a clock that stands still for 100002 calls gets an id twice. */
  lemma StandingClockRepeats(clock: seq<Time>, marks: seq<Mark>, t: Time)
    requires Issued(clock, marks) && |clock| >= MAX + 3 && forall i :: 0 <= i < |clock| ==> clock[i] == t
    ensures forall i :: 0 <= i <= 99999 ==> marks[i] == Mark(t, i)
    ensures ValidTime(t) && NextMicro(t).Some? && marks[100000] == Mark(NextMicro(t).value, 0) && marks[100001] == Mark(t, 0)
    ensures !TextsDistinct(marks)
  {
    forall i: nat | i <= MAX ensures marks[i] == Mark(t, i) {
      StandingMarks(clock, marks, t, i);
    }
    assert IssuedAt(clock, marks, 0) && IssuedAt(clock, marks, MAX + 1) && IssuedAt(clock, marks, MAX + 2);
    NextIsNext(t, t);
    assert marks[0] == Mark(t, 0) == marks[MAX + 2];
  }

  lemma {:induction false} StandingMarks(clock: seq<Time>, marks: seq<Mark>, t: Time, i: nat)
    requires Issued(clock, marks) && i <= MAX && i < |clock| && forall k :: 0 <= k < |clock| ==> clock[k] == t
    ensures marks[i] == Mark(t, i)
  {
    assert IssuedAt(clock, marks, i);
    if i > 0 {
      StandingMarks(clock, marks, t, i - 1);
    }
  }

  /** And such a run exists on every reading but the very last. */
  lemma StandingClockIssues(t: Time) returns (clock: seq<Time>, marks: seq<Mark>)
    requires ValidTime(t) && NextMicro(t).Some?
    ensures Issued(clock, marks) && |clock| == MAX + 3 && (forall i :: 0 <= i < |clock| ==> clock[i] == t)
    ensures !TextsDistinct(marks)
  {
    clock := seq(MAX + 3, i => t);
    marks := seq(MAX + 3, i requires 0 <= i < MAX + 3 =>
      if i <= MAX then Mark(t, i) else if i == MAX + 1 then Mark(NextMicro(t).value, 0) else Mark(t, 0));
    NextIsNext(t, t);
    forall i | 0 <= i < |clock| ensures IssuedAt(clock, marks, i) {
    }
    StandingClockRepeats(clock, marks, t);
  }
}
