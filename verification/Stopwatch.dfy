/**
 The stopwatch: splitting a count of milliseconds into months, days, hours, minutes, seconds and
 milliseconds, and printing as many of the fields as are needed.
 */
module Stopwatch {
  import opened Prelude

  const SEC_FACTOR: nat := 1000
  const MIN_FACTOR: nat := 1000 * 60
  const HOUR_FACTOR: nat := 1000 * 60 * 60
  const DAY_FACTOR: nat := 1000 * 60 * 60 * 24
  const MONTH_FACTOR: nat := 1000 * 60 * 60 * 24 * 30

  datatype Fields = Fields(year: nat, month: nat, day: nat, hour: nat, min: nat, sec: nat, ms: nat)

  // ---- The mixed-radix form

  /** What the fields below the year stand for. */
  function Total(f: Fields): nat {
    f.month * MONTH_FACTOR + f.day * DAY_FACTOR + f.hour * HOUR_FACTOR + f.min * MIN_FACTOR + f.sec * SEC_FACTOR + f.ms
  }

  /** Every field below the month is within its radix. */
  predicate InRange(f: Fields) {
    f.day < 30 && f.hour < 24 && f.min < 60 && f.sec < 60 && f.ms < 1000
  }

  lemma OneMore(a: nat, b: nat, radix: nat)
    requires a > b
    ensures a * radix >= b * radix + radix
  {
    assert (a - b - 1) * radix >= 0;
  }

  lemma DigitUnique(a: nat, x: nat, b: nat, y: nat, radix: nat)
    requires x < radix && y < radix && a * radix + x == b * radix + y
    ensures a == b && x == y
  {
    if a > b {
      OneMore(a, b, radix);
    } else if a < b {
      OneMore(b, a, radix);
    }
  }

  /** Two forms in range that stand for the same count agree in every field below the year. */
  lemma MixedRadixUnique(f: Fields, g: Fields)
    requires InRange(f) && InRange(g) && Total(f) == Total(g)
    ensures f == g.(year := f.year)
  {
    var fd, gd := f.month * 30 + f.day, g.month * 30 + g.day;
    var fh, gh := fd * 24 + f.hour, gd * 24 + g.hour;
    var fm, gm := fh * 60 + f.min, gh * 60 + g.min;
    var fs, gs := fm * 60 + f.sec, gm * 60 + g.sec;
    assert Total(f) == fs * 1000 + f.ms && Total(g) == gs * 1000 + g.ms;
    hide Total;
    DigitUnique(fs, f.ms, gs, g.ms, 1000);
    DigitUnique(fm, f.sec, gm, g.sec, 60);
    DigitUnique(fh, f.min, gh, g.min, 60);
    DigitUnique(fd, f.hour, gd, g.hour, 24);
    DigitUnique(f.month, f.day, g.month, g.day, 30);
  }

  // ---- Decimal numbers

  predicate IsDigit(c: char) {
    '0' <= c <= '9'
  }

  predicate AllDigits(s: string) {
    forall i :: 0 <= i < |s| ==> IsDigit(s[i])
  }

  function DigitChar(d: nat): (c: char)
    requires d < 10
    ensures IsDigit(c) && (c - '0') as nat == d
  {
    '0' + d as char
  }

  /** %d of a number that is not negative. */
  function Dec(n: nat): (s: string)
    ensures s != "" && AllDigits(s)
  {
    if n < 10 then [DigitChar(n)] else Dec(n / 10) + [DigitChar(n % 10)]
  }

  function Zeros(n: nat): (s: string)
    ensures |s| == n && forall i :: 0 <= i < n ==> s[i] == '0'
  {
    if n == 0 then "" else "0" + Zeros(n - 1)
  }

  /** %0wd: at least `w` digits. */
  function Pad(n: nat, w: nat): (s: string)
    ensures s != "" && AllDigits(s) && |s| >= w
  {
    if |Dec(n)| < w then Zeros(w - |Dec(n)|) + Dec(n) else Dec(n)
  }

  /** The number that a string of digits denotes. */
  function Value(s: string): nat
    requires AllDigits(s)
  {
    if s == "" then 0 else 10 * Value(s[..|s| - 1]) + (s[|s| - 1] - '0') as nat
  }

  function Pow10(n: nat): (p: nat)
    ensures p >= 1
  {
    if n == 0 then 1 else 10 * Pow10(n - 1)
  }

  lemma {:induction false} ValueDec(n: nat)
    ensures Value(Dec(n)) == n
  {
    if n < 10 {
      assert Dec(n)[..0] == "";
    } else {
      ValueDec(n / 10);
      assert Dec(n)[..|Dec(n)| - 1] == Dec(n / 10);
    }
  }

  lemma Regroup(v: nat, p: nat)
    ensures 10 * (v * p) == v * (10 * p)
  {
  }

  lemma {:induction false} ValueConcat(s: string, t: string)
    requires AllDigits(s) && AllDigits(t)
    ensures AllDigits(s + t)
    ensures Value(s + t) == Value(s) * Pow10(|t|) + Value(t)
  {
    if t == "" {
      assert s + t == s;
    } else {
      var t' := t[..|t| - 1];
      assert (s + t)[..|s + t| - 1] == s + t';
      ValueConcat(s, t');
      Regroup(Value(s), Pow10(|t'|));
    }
  }

  lemma {:induction false} ValueZeros(n: nat)
    ensures AllDigits(Zeros(n)) && Value(Zeros(n)) == 0
  {
    if n > 0 {
      assert Zeros(n)[..n - 1] == Zeros(n - 1);
      ValueZeros(n - 1);
    }
  }

  lemma ValuePad(n: nat, w: nat)
    ensures Value(Pad(n, w)) == n
  {
    ValueDec(n);
    if |Dec(n)| < w {
      ValueZeros(w - |Dec(n)|);
      ValueConcat(Zeros(w - |Dec(n)|), Dec(n));
    }
  }

  lemma {:induction false} DecLength(n: nat, w: nat)
    requires w > 0 && n < Pow10(w)
    ensures |Dec(n)| <= w
  {
    if n >= 10 {
      DecLength(n / 10, w - 1);
    }
  }

  lemma PadLength(n: nat, w: nat)
    requires w > 0 && n < Pow10(w)
    ensures |Pad(n, w)| == w
  {
    DecLength(n, w);
  }

  // ---- Printing

  function Secs(f: Fields, tail: string): string {
    Pad(f.sec, 2) + "." + tail
  }

  function Clock(f: Fields, tail: string): string {
    Pad(f.hour, 2) + ":" + (Pad(f.min, 2) + ":" + Secs(f, tail))
  }

  function FromDay(f: Fields, tail: string): string {
    Dec(f.day) + "D" + Clock(f, tail)
  }

  function FromMonth(f: Fields, tail: string): string {
    Dec(f.month) + "M" + FromDay(f, tail)
  }

  /** The format of readable, with `tail` after the point: it starts with the highest field that is not zero. */
  function Format(f: Fields, tail: string): string {
    if f.year > 0 then Dec(f.year) + "Y" + FromMonth(f, tail)
    else if f.month > 0 then FromMonth(f, tail)
    else if f.day > 0 then FromDay(f, tail)
    else if f.hour > 0 then Dec(f.hour) + ":" + (Pad(f.min, 2) + ":" + Secs(f, tail))
    else if f.min > 0 then Dec(f.min) + ":" + Secs(f, tail)
    else if f.sec > 0 then Dec(f.sec) + "." + tail
    else "0" + "." + tail
  }

  // ---- Reading back

  /** A printed time taken apart: the digits before each separator, and those after the last one. */
  datatype Parts = Parts(groups: seq<string>, seps: string, last: string)

  /** Every group has digits only. */
  predicate Numeric(p: Parts) {
    && |p.groups| == |p.seps| && AllDigits(p.last)
    && forall i :: 0 <= i < |p.groups| ==> AllDigits(p.groups[i])
  }

  /** `acc` holds the digits read since the last separator. */
  function Split(s: string, acc: string): (p: Parts)
    requires AllDigits(acc)
    ensures Numeric(p)
  {
    if s == "" then Parts([], "", acc)
    else if IsDigit(s[0]) then Split(s[1..], acc + [s[0]])
    else
      var rest := Split(s[1..], "");
      Parts([acc] + rest.groups, [s[0]] + rest.seps, rest.last)
  }

  /** The numbers before the separators. */
  function Numbers(p: Parts): (n: seq<nat>)
    requires Numeric(p)
    ensures |n| == |p.seps| && forall i :: 0 <= i < |n| ==> n[i] == Value(p.groups[i])
  {
    seq(|p.groups|, i requires 0 <= i < |p.groups| => Value(p.groups[i]))
  }

  /** The counts of minutes, seconds and so on that the separators give to the numbers, in seconds. */
  function Seconds(seps: string, n: seq<nat>): Option<nat>
    requires |n| == |seps|
  {
    if seps == "YMD::." then Some(n[1] * 2592000 + n[2] * 86400 + n[3] * 3600 + n[4] * 60 + n[5])
    else if seps == "MD::." then Some(n[0] * 2592000 + n[1] * 86400 + n[2] * 3600 + n[3] * 60 + n[4])
    else if seps == "D::." then Some(n[0] * 86400 + n[1] * 3600 + n[2] * 60 + n[3])
    else if seps == "::." then Some(n[0] * 3600 + n[1] * 60 + n[2])
    else if seps == ":." then Some(n[0] * 60 + n[1])
    else if seps == "." then Some(n[0])
    else None
  }

  /** A decoder that looks at the separators only and ignores the year. */
  function DecodeMs(s: string): Option<nat> {
    var p := Split(s, "");
    match Seconds(p.seps, Numbers(p))
    case None => None
    case Some(sec) => Some(sec * 1000 + Value(p.last))
  }

  lemma {:induction false} SplitGroup(d: string, c: char, rest: string, acc: string)
    requires AllDigits(d) && AllDigits(acc) && !IsDigit(c)
    ensures AllDigits(acc + d)
    ensures Split(d + [c] + rest, acc)
         == Parts([acc + d] + Split(rest, "").groups, [c] + Split(rest, "").seps, Split(rest, "").last)
    decreases |d|
  {
    var s := d + [c] + rest;
    if d == "" {
      assert s[0] == c && s[1..] == rest;
      assert acc + d == acc;
    } else {
      assert s[0] == d[0] && s[1..] == d[1..] + [c] + rest;
      assert AllDigits(acc + [d[0]]);
      SplitGroup(d[1..], c, rest, acc + [d[0]]);
      assert acc + [d[0]] + d[1..] == acc + d;
    }
  }

  lemma {:induction false} SplitTail(d: string, acc: string)
    requires AllDigits(d) && AllDigits(acc)
    ensures Split(d, acc) == Parts([], "", acc + d)
    decreases |d|
  {
    if d == "" {
      assert acc + d == acc;
    } else {
      assert AllDigits(acc + [d[0]]);
      SplitTail(d[1..], acc + [d[0]]);
      assert acc + [d[0]] + d[1..] == acc + d;
    }
  }

  /** A group of digits `d`, then separator `c`. */
  lemma Group(d: string, c: string, rest: string)
    requires AllDigits(d) && |c| == 1 && !IsDigit(c[0])
    ensures Split(d + c + rest, "")
         == Parts([d] + Split(rest, "").groups, c + Split(rest, "").seps, Split(rest, "").last)
  {
    SplitGroup(d, c[0], rest, "");
    assert "" + d == d;
    assert [c[0]] == c;
  }

  lemma SplitSecs(f: Fields, tail: string)
    requires AllDigits(tail)
    ensures Split(tail, "") == Parts([], "", tail)
    ensures Split(Secs(f, tail), "") == Parts([Pad(f.sec, 2)], ".", tail)
  {
    hide Split, Dec;
    SplitTail(tail, "");
    assert "" + tail == tail;
    Group(Pad(f.sec, 2), ".", tail);
  }

  lemma SplitMinutes(f: Fields, tail: string)
    requires AllDigits(tail)
    ensures Split(Pad(f.min, 2) + ":" + Secs(f, tail), "") == Parts([Pad(f.min, 2), Pad(f.sec, 2)], ":.", tail)
  {
    hide Split, Dec, Secs;
    SplitSecs(f, tail);
    Group(Pad(f.min, 2), ":", Secs(f, tail));
  }

  lemma SplitClock(f: Fields, tail: string)
    requires AllDigits(tail)
    ensures Split(Clock(f, tail), "") == Parts([Pad(f.hour, 2), Pad(f.min, 2), Pad(f.sec, 2)], "::.", tail)
  {
    hide Split, Dec, Secs;
    SplitMinutes(f, tail);
    Group(Pad(f.hour, 2), ":", Pad(f.min, 2) + ":" + Secs(f, tail));
  }

  lemma SplitFromDay(f: Fields, tail: string)
    requires AllDigits(tail)
    ensures Split(FromDay(f, tail), "")
         == Parts([Dec(f.day), Pad(f.hour, 2), Pad(f.min, 2), Pad(f.sec, 2)], "D::.", tail)
  {
    hide Split, Dec, Clock;
    SplitClock(f, tail);
    Group(Dec(f.day), "D", Clock(f, tail));
  }

  lemma SplitFromMonth(f: Fields, tail: string)
    requires AllDigits(tail)
    ensures Split(FromMonth(f, tail), "")
         == Parts([Dec(f.month), Dec(f.day), Pad(f.hour, 2), Pad(f.min, 2), Pad(f.sec, 2)], "MD::.", tail)
  {
    hide Split, Dec, FromDay;
    SplitFromDay(f, tail);
    Group(Dec(f.month), "M", FromDay(f, tail));
  }

  lemma SplitFromYear(f: Fields, tail: string)
    requires AllDigits(tail)
    ensures Split(Dec(f.year) + "Y" + FromMonth(f, tail), "")
         == Parts([Dec(f.year), Dec(f.month), Dec(f.day), Pad(f.hour, 2), Pad(f.min, 2), Pad(f.sec, 2)], "YMD::.", tail)
  {
    hide Split, Dec, FromMonth;
    SplitFromMonth(f, tail);
    Group(Dec(f.year), "Y", FromMonth(f, tail));
  }

  lemma SplitHours(f: Fields, tail: string)
    requires AllDigits(tail)
    ensures Split(Dec(f.hour) + ":" + (Pad(f.min, 2) + ":" + Secs(f, tail)), "")
         == Parts([Dec(f.hour), Pad(f.min, 2), Pad(f.sec, 2)], "::.", tail)
  {
    hide Split, Dec, Secs, Pad;
    SplitMinutes(f, tail);
    Group(Dec(f.hour), ":", Pad(f.min, 2) + ":" + Secs(f, tail));
  }

  lemma SplitMinutesFirst(f: Fields, tail: string)
    requires AllDigits(tail)
    ensures Split(Dec(f.min) + ":" + Secs(f, tail), "") == Parts([Dec(f.min), Pad(f.sec, 2)], ":.", tail)
  {
    hide Split, Dec, Secs;
    SplitSecs(f, tail);
    Group(Dec(f.min), ":", Secs(f, tail));
  }

  lemma SplitSecondsFirst(f: Fields, tail: string)
    requires AllDigits(tail)
    ensures Split(Dec(f.sec) + "." + tail, "") == Parts([Dec(f.sec)], ".", tail)
    ensures Dec(0) == "0"
  {
    assert Dec(0) == "0";
    hide Split, Dec, Secs;
    SplitSecs(f, tail);
    Group(Dec(f.sec), ".", tail);
  }

  /** The separators of each shape. */
  function SepsOf(f: Fields): string {
    if f.year > 0 then "YMD::."
    else if f.month > 0 then "MD::."
    else if f.day > 0 then "D::."
    else if f.hour > 0 then "::."
    else if f.min > 0 then ":."
    else "."
  }

  /** The fields that are printed, highest first. */
  function Printed(f: Fields): (n: seq<nat>)
    ensures |n| == |SepsOf(f)|
  {
    if f.year > 0 then [f.year, f.month, f.day, f.hour, f.min, f.sec]
    else if f.month > 0 then [f.month, f.day, f.hour, f.min, f.sec]
    else if f.day > 0 then [f.day, f.hour, f.min, f.sec]
    else if f.hour > 0 then [f.hour, f.min, f.sec]
    else if f.min > 0 then [f.min, f.sec]
    else [f.sec]
  }

  /** Number `i` without leading zeros, if it is the first, a month or a day after the month, else with two digits. */
  function GroupOf(f: Fields, i: nat): (g: string)
    requires i < |SepsOf(f)|
    ensures AllDigits(g)
  {
    if i == 0 || SepsOf(f)[i - 1] == 'Y' || SepsOf(f)[i - 1] == 'M' then Dec(Printed(f)[i]) else Pad(Printed(f)[i], 2)
  }

  function PartsOf(f: Fields, tail: string): (p: Parts)
    requires AllDigits(tail)
    ensures Numeric(p)
  {
    Parts(seq(|SepsOf(f)|, i requires 0 <= i < |SepsOf(f)| => GroupOf(f, i)), SepsOf(f), tail)
  }

  lemma NumbersOfParts(f: Fields, tail: string)
    requires AllDigits(tail)
    ensures Numbers(PartsOf(f, tail)) == Printed(f)
  {
    forall i | 0 <= i < |SepsOf(f)| ensures Value(GroupOf(f, i)) == Printed(f)[i] {
      ValueDec(Printed(f)[i]);
      ValuePad(Printed(f)[i], 2);
    }
    hide GroupOf, Printed, SepsOf;
    assert |Numbers(PartsOf(f, tail))| == |Printed(f)|;
  }

  lemma SplitFormat(f: Fields, tail: string)
    requires AllDigits(tail)
    ensures Split(Format(f, tail), "") == PartsOf(f, tail)
  {
    hide Split, Dec, Pad, Secs, FromDay, FromMonth;
    if f.year > 0 {
      SplitFromYear(f, tail);
    } else if f.month > 0 {
      SplitFromMonth(f, tail);
    } else if f.day > 0 {
      SplitFromDay(f, tail);
    } else if f.hour > 0 {
      SplitHours(f, tail);
    } else if f.min > 0 {
      SplitMinutesFirst(f, tail);
    } else {
      SplitSecondsFirst(f, tail);
    }
  }

  /** The seconds before the point. */
  function WholeSeconds(f: Fields): nat {
    f.month * 2592000 + f.day * 86400 + f.hour * 3600 + f.min * 60 + f.sec
  }

  /** Whatever the shape, the separators tell which field each number is. */
  lemma SecondsOfPrinted(f: Fields)
    requires f.year > 0 ==> f.month > 0
    ensures Seconds(SepsOf(f), Printed(f)) == Some(WholeSeconds(f))
  {
  }

  // ---- What the text looks like

  /** No zero in front of another digit. */
  predicate NoLeadingZero(g: string) {
    |g| == 1 || (|g| > 1 && g[0] != '0')
  }

  /**
   The first number, and a month or a day after a larger unit, are printed without leading zeros, the other
   numbers with two digits.
   */
  predicate Widths(p: Parts) {
    && Numeric(p)
    && forall i :: 0 <= i < |p.groups| ==>
         if i == 0 || p.seps[i - 1] == 'Y' || p.seps[i - 1] == 'M' then NoLeadingZero(p.groups[i])
         else |p.groups[i]| == 2
  }

  /** A larger unit starts only where the smaller one is full. */
  predicate Radices(seps: string, n: seq<nat>) {
    && |n| == |seps|
    && forall i :: 0 <= i < |seps| ==>
         && (seps[i] == '.' ==> n[i] < 60)
         && (seps[i] == ':' ==> i + 1 < |seps| && n[i] < if seps[i + 1] == '.' then 60 else 24)
         && (seps[i] == 'D' ==> n[i] < 30)
  }

  /** The units that a count of milliseconds is printed in; the year is a number of whole years of 365 days. */
  predicate Shape(p: Parts, ms: nat) {
    && Numeric(p)
    && p.seps == (if ms >= 31536000000 then "YMD::."
                  else if ms >= 2592000000 then "MD::."
                  else if ms >= 86400000 then "D::."
                  else if ms >= 3600000 then "::."
                  else if ms >= 60000 then ":."
                  else ".")
    && (ms >= 31536000000 ==> Numbers(p)[0] == ms / 31536000000)
  }

  lemma {:induction false} DecLeads(n: nat)
    ensures NoLeadingZero(Dec(n))
    ensures n > 0 ==> Dec(n)[0] != '0'
  {
    if n >= 10 {
      DecLeads(n / 10);
    }
  }

  lemma TwoDigits(n: nat)
    requires n < 100
    ensures |Pad(n, 2)| == 2
  {
    PowersOfTen();
    PadLength(n, 2);
  }

  lemma WidthsOfParts(f: Fields, tail: string)
    requires InRange(f) && AllDigits(tail)
    ensures Widths(PartsOf(f, tail))
  {
    forall i | 0 <= i < |SepsOf(f)|
      ensures if i == 0 || SepsOf(f)[i - 1] == 'Y' || SepsOf(f)[i - 1] == 'M' then NoLeadingZero(GroupOf(f, i))
              else |GroupOf(f, i)| == 2
    {
      if i == 0 || SepsOf(f)[i - 1] == 'Y' || SepsOf(f)[i - 1] == 'M' {
        DecLeads(Printed(f)[i]);
      } else {
        TwoDigits(Printed(f)[i]);
      }
    }
    hide GroupOf, Printed, SepsOf, NoLeadingZero;
  }

  lemma RadicesOfPrinted(f: Fields)
    requires InRange(f)
    ensures Radices(SepsOf(f), Printed(f))
  {
  }

  lemma ShapeOfFields(f: Fields, ms: nat)
    requires FieldsOf(f, ms)
    ensures f.year == ms / 31536000000
    ensures f.year > 0 <==> ms >= 31536000000
    ensures f.year > 0 || f.month > 0 <==> ms >= 2592000000
    ensures f.year > 0 || f.month > 0 || f.day > 0 <==> ms >= 86400000
    ensures f.year > 0 || f.month > 0 || f.day > 0 || f.hour > 0 <==> ms >= 3600000
    ensures f.year > 0 || f.month > 0 || f.day > 0 || f.hour > 0 || f.min > 0 <==> ms >= 60000
  {
    YearImpliesTwelveMonths(f, ms);
  }

  lemma ShapeOfParts(f: Fields, ms: nat, tail: string)
    requires FieldsOf(f, ms) && AllDigits(tail)
    ensures Shape(PartsOf(f, tail), ms)
  {
    ShapeOfFields(f, ms);
    NumbersOfParts(f, tail);
    hide FieldsOf, GroupOf, Numbers, Numeric;
  }

  /** What is printed, whatever the digits after the point: the units, the digits and the range of each number. */
  lemma TextLooks(f: Fields, ms: nat, tail: string)
    requires FieldsOf(f, ms) && AllDigits(tail)
    ensures var p := Split(Format(f, tail), "");
      Shape(p, ms) && Widths(p) && Radices(p.seps, Numbers(p)) && p.last == tail
  {
    hide Split, Format, Shape, Widths, Radices, PartsOf;
    SplitFormat(f, tail);
    WidthsOfParts(f, tail);
    RadicesOfPrinted(f);
    NumbersOfParts(f, tail);
    ShapeOfParts(f, ms, tail);
    SepsOfParts(f, tail);
  }

  lemma SepsOfParts(f: Fields, tail: string)
    requires AllDigits(tail)
    ensures PartsOf(f, tail).last == tail && PartsOf(f, tail).seps == SepsOf(f)
  {
  }

  // ---- readable

  /** The fields that belong to a count of milliseconds, by their defining property. */
  predicate FieldsOf(f: Fields, ms: nat) {
    InRange(f) && Total(f) == ms && f.year == (ms / DAY_FACTOR) / 365
  }

  /** The year is redundant, and a printed year never hides a month that is zero. */
  lemma YearImpliesTwelveMonths(f: Fields, ms: nat)
    requires FieldsOf(f, ms)
    ensures f.year > 0 ==> f.month >= 12
    ensures f.year == (f.month * 30 + f.day) / 365
  {
    assert ms / DAY_FACTOR == f.month * 30 + f.day;
  }

  lemma SecondsOfFields(f: Fields, ms: nat)
    requires FieldsOf(f, ms)
    ensures ms == 1000 * WholeSeconds(f) + f.ms && f.ms < 1000
    ensures f.year > 0 ==> f.month > 0
  {
    YearImpliesTwelveMonths(f, ms);
  }

  /** What a printed time says: the seconds before the point and the digits after it. */
  lemma ReadBack(f: Fields, tail: string)
    requires AllDigits(tail) && (f.year > 0 ==> f.month > 0)
    ensures Split(Format(f, tail), "").last == tail
    ensures var p := Split(Format(f, tail), ""); Seconds(p.seps, Numbers(p)) == Some(WholeSeconds(f))
  {
    hide Split, Format;
    SplitFormat(f, tail);
    NumbersOfParts(f, tail);
    SecondsOfPrinted(f);
  }

  /** What readable prints for a count of milliseconds reads back as that count. */
  lemma ReadableLossless(f: Fields, ms: nat)
    requires FieldsOf(f, ms)
    ensures DecodeMs(Format(f, Pad(f.ms, 3))) == Some(ms)
  {
    hide FieldsOf, Split, Format, Pad, Seconds, Value, WholeSeconds;
    SecondsOfFields(f, ms);
    ReadBack(f, Pad(f.ms, 3));
    ValuePad(f.ms, 3);
  }

  /** One minute, one second and five milliseconds, as they are printed. */
  lemma ReadableMinute(f: Fields)
    requires FieldsOf(f, 61005)
    ensures Format(f, Pad(f.ms, 3)) == "1:01.005"
  {
    MixedRadixUnique(f, Fields(0, 0, 0, 0, 1, 1, 5));
    assert Dec(1) == "1" && Dec(5) == "5" && Zeros(1) == "0" && Zeros(2) == "00";
  }

  /** Hence different counts print differently, across all seven shapes. */
  lemma ReadableInjective(f: Fields, g: Fields, a: nat, b: nat)
    requires FieldsOf(f, a) && FieldsOf(g, b)
    requires Format(f, Pad(f.ms, 3)) == Format(g, Pad(g.ms, 3))
    ensures a == b && f == g
  {
    ReadableLossless(f, a);
    ReadableLossless(g, b);
    MixedRadixUnique(f, g);
  }

  // ---- readable2

  /** A whole number of seconds and a decimal fraction digits/scale of one, in microseconds. */
  function Micros(sec: nat, digits: nat, scale: nat): real
    requires scale > 0
  {
    sec as real * 1000000.0 + digits as real * 1000000.0 / scale as real
  }

  /** The time a printed text denotes as a decimal number of seconds, in microseconds. */
  function DenotedMicros(s: string): Option<real> {
    var p := Split(s, "");
    match Seconds(p.seps, Numbers(p))
    case None => None
    case Some(sec) =>
      Some(Micros(sec, Value(p.last), Pow10(|p.last|)))
  }

  /** readable2 splits the elapsed time into whole milliseconds and rounded microseconds. */
  predicate MicroSplit(elapsed: real, ms: nat, micro: int) {
    && elapsed >= 0.0
    && ms == elapsed.Floor
    && micro == ((elapsed - ms as real) * 1000.0 + 0.5).Floor
  }

  /** Together they are the elapsed time rounded half up to microseconds; the carry stays in `micro`. */
  lemma MicroSplitRounds(elapsed: real, ms: nat, micro: int)
    requires MicroSplit(elapsed, ms, micro)
    ensures 0 <= micro <= 1000
    ensures 1000 * ms + micro == (elapsed * 1000.0 + 0.5).Floor
    ensures micro < 1000 <==> elapsed - ms as real < 0.9995
  {
    var x := (elapsed - ms as real) * 1000.0 + 0.5;
    assert elapsed * 1000.0 + 0.5 == (1000 * ms) as real + x;
  }

  lemma PowersOfTen()
    ensures Pow10(1) == 10 && Pow10(2) == 100 && Pow10(3) == 1000 && Pow10(4) == 10000
    ensures Pow10(5) == 100000 && Pow10(6) == 1000000 && Pow10(7) == 10000000
  {
  }

  lemma DecThousand()
    ensures |Dec(1000)| == 4
  {
    assert |Dec(1)| == 1 && |Dec(10)| == 2 && |Dec(100)| == 3;
  }

  lemma Milliseconds(f: Fields, ms: nat)
    requires FieldsOf(f, ms)
    ensures |Pad(f.ms, 3)| == 3
  {
    PowersOfTen();
    PadLength(f.ms, 3);
  }

  lemma MicroDigits(f: Fields, ms: nat, micro: nat)
    requires FieldsOf(f, ms) && micro <= 1000
    ensures |Pad(f.ms, 3) + Pad(micro, 3)| == if micro < 1000 then 6 else 7
  {
    Milliseconds(f, ms);
    PowersOfTen();
    if micro < 1000 {
      PadLength(micro, 3);
    } else {
      DecThousand();
    }
  }

  lemma TailOfMicros(ms: nat, micro: nat)
    requires ms < 1000 && micro <= 1000
    ensures AllDigits(Pad(ms, 3) + Pad(micro, 3))
    ensures Pow10(|Pad(ms, 3) + Pad(micro, 3)|) == if micro < 1000 then 1000000 else 10000000
    ensures Value(Pad(ms, 3) + Pad(micro, 3)) == if micro < 1000 then 1000 * ms + micro else 10000 * ms + 1000
  {
    DecThousand();
    hide Dec, Value, Pow10;
    ValuePad(ms, 3);
    ValuePad(micro, 3);
    PowersOfTen();
    PadLength(ms, 3);
    ValueConcat(Pad(ms, 3), Pad(micro, 3));
    if micro < 1000 {
      PadLength(micro, 3);
    }
  }

  /** The digits after the point count millionths, or ten-millionths once the carry makes them seven. */
  lemma FractionOfTail(sec: nat, ms: nat, micro: nat, value: nat, scale: nat)
    requires micro <= 1000
    requires if micro < 1000 then value == 1000 * ms + micro && scale == 1000000
             else value == 10000 * ms + 1000 && scale == 10000000
    ensures Micros(sec, value, scale)
         == (1000 * (1000 * sec + ms) + if micro < 1000 then micro else 100) as real
  {
  }

  /** What the text of readable2 denotes: a carry of 1000 microseconds is read as 100. */
  lemma DenotedMicrosOf(f: Fields, ms: nat, micro: nat)
    requires FieldsOf(f, ms) && micro <= 1000
    ensures DenotedMicros(Format(f, Pad(f.ms, 3) + Pad(micro, 3)))
         == Some((1000 * ms + if micro < 1000 then micro else 100) as real)
  {
    hide FieldsOf, DenotedMicros, Format, Pad, Value, Pow10, AllDigits, Micros, WholeSeconds;
    var tail := Pad(f.ms, 3) + Pad(micro, 3);
    SecondsOfFields(f, ms);
    TailOfMicros(f.ms, micro);
    DenotedByTail(f, tail);
    FractionOfTail(WholeSeconds(f), f.ms, micro, Value(tail), Pow10(|tail|));
  }

  lemma DenotedByTail(f: Fields, tail: string)
    requires AllDigits(tail) && (f.year > 0 ==> f.month > 0)
    ensures DenotedMicros(Format(f, tail)) == Some(Micros(WholeSeconds(f), Value(tail), Pow10(|tail|)))
  {
    hide Split, Format, Seconds, Value, Pow10, AllDigits, Micros;
    ReadBack(f, tail);
  }

  /**
   The text of readable2 denotes the rounded elapsed time exactly when the microseconds stay below 1000,
   that is, when the fraction of a millisecond is below 0.9995; otherwise a seventh digit appears and the
   text falls short by nine tenths of a millisecond.
   */
  lemma Readable2Exactly(f: Fields, elapsed: real, ms: nat, micro: nat)
    requires MicroSplit(elapsed, ms, micro) && FieldsOf(f, ms)
    ensures
      var text := Format(f, Pad(f.ms, 3) + Pad(micro, 3));
      && DenotedMicros(text).Some?
      && (DenotedMicros(text).value == (elapsed * 1000.0 + 0.5).Floor as real <==> elapsed - ms as real < 0.9995)
      && (micro == 1000 ==> DenotedMicros(text).value == (elapsed * 1000.0 + 0.5).Floor as real - 900.0)
  {
    hide MicroSplit, FieldsOf, DenotedMicros, Format, Pad;
    MicroSplitRounds(elapsed, ms, micro);
    DenotedMicrosOf(f, ms, micro);
  }

  /** An elapsed time whose carry is lost: 0.9996 ms is printed as 100 microseconds instead of 1000. */
  lemma Readable2Carries()
    ensures
      var f := Fields(0, 0, 0, 0, 0, 0, 0);
      var text := Format(f, Pad(f.ms, 3) + Pad(1000, 3));
      && MicroSplit(0.9996, 0, 1000) && FieldsOf(f, 0)
      && text == "0.0001000" && DenotedMicros(text) == Some(100.0)
      && (0.9996 * 1000.0 + 0.5).Floor == 1000
  {
    var f := Fields(0, 0, 0, 0, 0, 0, 0);
    DenotedMicrosOf(f, 0, 1000);
    hide DenotedMicros;
    ThousandDigits();
  }

  lemma ThousandDigits()
    ensures Pad(0, 3) + Pad(1000, 3) == "0001000"
  {
    assert Dec(0) == "0" && Zeros(2) == "00";
    assert Dec(1) == "1" && Dec(10) == "10" && Dec(100) == "100" && Dec(1000) == "1000";
  }

  // ---- The class

  class Stopwatch {
    var start: real
    var elapsed: real
    var started: bool

    constructor (uninitialised: real)
      ensures start == 0.0 && !started && elapsed == uninitialised
    {
      start, started, elapsed := 0.0, false, uninitialised;
    }

    /** `now` is the clock in milliseconds. */
    method Begin(now: real)
      modifies this
      ensures started && start == now && elapsed == old(elapsed)
    {
      started := true;
      start := now;
    }

    method Stop(now: real)
      modifies this
      ensures !started && elapsed == now - old(start) && start == old(start)
    {
      elapsed := now - start;
      started := false;
    }

    /** Takes whole units of `factor` out of a count and leaves the rest in it. */
    static method Convert(msec: nat, factor: nat) returns (value: nat, rest: nat)
      requires factor > 0
      ensures value * factor + rest == msec && rest < factor
    {
      value := msec / factor;
      rest := msec - value * factor;
    }

    /** The chain of conversions that readable and readable2 share. */
    static method SplitFields(msec: nat) returns (f: Fields)
      ensures FieldsOf(f, msec)
    {
      var totalDays := msec / DAY_FACTOR;
      var year := totalDays / 365;
      var month, day, hour, min, sec;
      var rest := msec;
      month, rest := Convert(rest, MONTH_FACTOR);
      day, rest := Convert(rest, DAY_FACTOR);
      hour, rest := Convert(rest, HOUR_FACTOR);
      min, rest := Convert(rest, MIN_FACTOR);
      sec, rest := Convert(rest, SEC_FACTOR);
      f := Fields(year, month, day, hour, min, sec, rest);
    }

    method Readable() returns (text: string)
      requires elapsed >= 0.0
      ensures exists f :: FieldsOf(f, (elapsed + 0.5).Floor) && text == Format(f, Pad(f.ms, 3))
      ensures DecodeMs(text) == Some((elapsed + 0.5).Floor)
      ensures var p := Split(text, "");
        Shape(p, (elapsed + 0.5).Floor) && Widths(p) && Radices(p.seps, Numbers(p)) && |p.last| == 3
    {
      hide Format, Pad, FieldsOf, Shape, Widths, Radices, DecodeMs;
      var msec := (elapsed + 0.5).Floor;
      var f := SplitFields(msec);
      text := Format(f, Pad(f.ms, 3));
      ReadableLossless(f, msec);
      TextLooks(f, msec, Pad(f.ms, 3));
      Milliseconds(f, msec);
    }

    method Readable2() returns (text: string)
      requires elapsed >= 0.0
      ensures exists f, ms: nat, micro: nat ::
        && MicroSplit(elapsed, ms, micro) && FieldsOf(f, ms)
        && text == Format(f, Pad(f.ms, 3) + Pad(micro, 3))
      ensures DenotedMicros(text).Some?
      ensures DenotedMicros(text).value == (elapsed * 1000.0 + 0.5).Floor as real
              <==> elapsed - elapsed.Floor as real < 0.9995
      ensures var p := Split(text, "");
        && Shape(p, elapsed.Floor) && Widths(p) && Radices(p.seps, Numbers(p))
        && |p.last| == if elapsed - elapsed.Floor as real < 0.9995 then 6 else 7
    {
      hide DenotedMicros, Format, Pad, FieldsOf, Shape, Widths, Radices;
      var msec := elapsed.Floor;
      var micro := ((elapsed - msec as real) * 1000.0 + 0.5).Floor;
      var f := SplitFields(msec);
      MicroSplitRounds(elapsed, msec, micro);
      text := Format(f, Pad(f.ms, 3) + Pad(micro, 3));
      Readable2Exactly(f, elapsed, msec, micro);
      TextLooks(f, msec, Pad(f.ms, 3) + Pad(micro, 3));
      MicroDigits(f, msec, micro);
    }
  }
}
