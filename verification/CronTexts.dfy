/**
Cron texts written out and read back.

Numbers are written in decimal, ranges and steps around them, parts with commas
between them.  Reading gives back exactly what was written, or the error the numbers
deserve, so the reading of texts rests on nothing but how numbers are written.
*/
module CronTexts {
  import opened Options
  import opened Calendar
  import opened Cron
  import opened Schedules

  // ---------------------------------------------------------------- numbers

  function DigitOf(d: nat): char
    requires d < 10
  {
    ['0', '1', '2', '3', '4', '5', '6', '7', '8', '9'][d]
  }

  /** A number in decimal, without leading zeros. */
  function Digits(n: nat): (s: string)
    ensures s != []
  {
    (if n < 10 then [] else Digits(n / 10)) + [DigitOf(n % 10)]
  }

  lemma DigitReads(d: nat)
    requires d < 10
    ensures IsDigit(DigitOf(d)) && DigitOf(d) as int - '0' as int == d
  {
  }

  lemma {:induction false} DigitsRead(n: nat)
    ensures (forall c :: c in Digits(n) ==> IsDigit(c)) && Decimal(Digits(n)) == n
  {
    hide DigitOf;
    DigitReads(n % 10);
    var front := if n < 10 then [] else Digits(n / 10);
    if n >= 10 {
      DigitsRead(n / 10);
    }
    assert Digits(n)[..|Digits(n)| - 1] == front;
  }

  lemma DigitsOnly(n: nat, c: char)
    requires c in {'+', '-', '/', ',', '*'}
    ensures c !in Digits(n)
  {
    DigitsRead(n);
  }

  /** Every number below 2^32 is read back, with or without a plus sign, and no larger one is accepted. */
  lemma NumberRoundTrip(n: nat)
    ensures ParseU32(Digits(n)) == (if n < 0x1_0000_0000 then Some(n) else None)
    ensures ParseU32("+" + Digits(n)) == (if n < 0x1_0000_0000 then Some(n) else None)
  {
    hide Decimal, Digits;
    DigitsRead(n);
    DigitsOnly(n, '+');
    ReadsDigits(Digits(n));
  }

  lemma ReadsDigits(s: string)
    requires s != [] && (forall c :: c in s ==> IsDigit(c)) && '+' !in s
    ensures ParseU32(s) == (if Decimal(s) < 0x1_0000_0000 then Some(Decimal(s)) else None)
    ensures ParseU32("+" + s) == ParseU32(s)
  {
    hide Decimal;
    assert s[0] in s;
    assert ("+" + s)[1..] == s && ("+" + s)[0] == '+';
  }

  /** A leading zero changes nothing. */
  lemma {:induction false} LeadingZero(s: string)
    requires forall c :: c in s ==> IsDigit(c)
    ensures (forall c :: c in ['0'] + s ==> IsDigit(c)) && Decimal(['0'] + s) == Decimal(s)
    decreases |s|
  {
    if s == [] {
      assert ['0'] + s == ['0'] && ['0'][..0] == [];
    } else {
      var n := |s| - 1;
      LeadingZero(s[..n]);
      assert (['0'] + s)[..n + 1] == ['0'] + s[..n];
    }
  }

  /** Nothing else is a number: no text is one that is empty, a lone sign, or has another character in it. */
  lemma NotANumber(s: string, i: nat)
    ensures ParseU32("") == None && ParseU32("+") == None
    ensures i < |s| && (s[i] < '0' || s[i] > '9') && (i > 0 || s[i] != '+') ==> ParseU32(s) == None
  {
    if i < |s| && (s[i] < '0' || s[i] > '9') && (i > 0 || s[i] != '+') {
      if s[0] == '+' {
        var digits := s[1..];
        assert digits[i - 1] == s[i] && digits[i - 1] in digits && !IsDigit(digits[i - 1]);
      } else {
        assert s[i] in s && !IsDigit(s[i]);
      }
    }
  }

  // ---------------------------------------------------------------- separators

  lemma {:induction false} FirstAt(a: string, c: char, b: string)
    requires c !in a
    ensures IndexOf(a + [c] + b, c) == |a|
    decreases |a|
  {
    if a == [] {
      assert (a + [c] + b)[0] == c;
    } else {
      assert (a + [c] + b)[1..] == a[1..] + [c] + b;
      FirstAt(a[1..], c, b);
    }
  }

  /** A text is cut at the first separator and nowhere else. */
  lemma CutExactly(a: string, c: char, b: string)
    requires c !in a
    ensures SplitOnce(a + [c] + b, c) == Some((a, b)) && SplitOnce(a, c) == None
  {
    FirstAt(a, c, b);
    NotFound(a, c);
    assert (a + [c] + b)[..|a|] == a && (a + [c] + b)[|a| + 1..] == b;
  }

  function Join(parts: seq<string>, c: char): string
    requires parts != []
  {
    if |parts| == 1 then parts[0] else parts[0] + [c] + Join(parts[1..], c)
  }

  /** Splitting undoes joining. */
  lemma {:induction false} SplitJoin(parts: seq<string>, c: char)
    requires parts != [] && forall p :: p in parts ==> c !in p
    ensures Split(Join(parts, c), c) == parts
    decreases |parts|
  {
    var a := parts[0];
    assert a in parts;
    NotFound(a, c);
    if |parts| == 1 {
      assert parts == [a];
    } else {
      var rest := parts[1..];
      SplitJoin(rest, c);
      var s := Join(parts, c);
      FirstAt(a, c, Join(rest, c));
      assert s[..|a|] == a && s[|a| + 1..] == Join(rest, c);
      assert parts == [a] + rest;
    }
  }

  /** Joining undoes splitting. */
  lemma {:induction false} JoinSplit(s: string, c: char)
    ensures Join(Split(s, c), c) == s && forall p :: p in Split(s, c) ==> c !in p
    decreases |s|
  {
    NothingBefore(s, c);
    var i := IndexOf(s, c);
    if i < |s| {
      JoinSplit(s[i + 1..], c);
      var rest := Split(s[i + 1..], c);
      assert ([s[..i]] + rest)[1..] == rest;
      assert s == s[..i] + [c] + s[i + 1..];
    } else {
      assert s[..i] == s;
    }
  }

  lemma {:induction false} NothingBefore(s: string, c: char)
    ensures c !in s[..IndexOf(s, c)] && (IndexOf(s, c) < |s| ==> s[IndexOf(s, c)] == c)
    decreases |s|
  {
    if s != [] && s[0] != c {
      NothingBefore(s[1..], c);
      var i := IndexOf(s, c);
      assert s[..i] == [s[0]] + s[1..][..i - 1];
    }
  }

  // ---------------------------------------------------------------- parts

  /** The ways to write a range. */
  datatype Range = Star | One(v: nat) | Span(lo: nat, hi: nat)

  function RangeWritten(r: Range): string {
    match r
    case Star => "*"
    case One(v) => Digits(v)
    case Span(lo, hi) => Digits(lo) + ['-'] + Digits(hi)
  }

  function PartWritten(r: Range, step: Option<nat>): string {
    if step.None? then RangeWritten(r) else RangeWritten(r) + ['/'] + Digits(step.value)
  }

  /** What a part means, or the error it deserves. */
  function PartMeant(r: Range, step: Option<nat>, min: nat, max: nat): Result<Part> {
    var lo := match r case Star => min case One(v) => v case Span(a, _) => a;
    var hi := match r case Star => max case One(v) => v case Span(_, b) => b;
    if step.Some? && step.value >= U32 then Err(BadStep)
    else if step == Some(0) then Err(ZeroStep)
    else if r.One? && lo >= U32 then Err(BadValue)
    else if r.Span? && (lo >= U32 || hi >= U32) then Err(BadRange)
    else if lo < min || hi > max || lo > hi then Err(OutOfRange)
    else Ok(Part(lo, hi, if step.Some? then step.value else 1))
  }

  lemma RangePlain(r: Range)
    ensures '/' !in RangeWritten(r) && ',' !in RangeWritten(r)
  {
    match r
    case Star =>
    case One(v) =>
      DigitsOnly(v, '/');
      DigitsOnly(v, ',');
    case Span(lo, hi) =>
      DigitsOnly(lo, '/');
      DigitsOnly(lo, ',');
      DigitsOnly(hi, '/');
      DigitsOnly(hi, ',');
  }

  lemma PartPlain(r: Range, step: Option<nat>)
    ensures ',' !in PartWritten(r, step)
  {
    RangePlain(r);
    if step.Some? {
      DigitsOnly(step.value, ',');
    }
  }

  lemma NotStar(n: nat, rest: string)
    ensures Digits(n) + rest != "*"
  {
    DigitsOnly(n, '*');
    assert (Digits(n) + rest)[0] == Digits(n)[0];
    assert Digits(n)[0] in Digits(n);
  }

  lemma RangeReads(r: Range, min: nat, max: nat)
    ensures ReadRange(RangeWritten(r), min, max) ==
            (match r
             case Star => Ok((min, max))
             case One(v) => if v < U32 then Ok((v, v)) else Err(BadValue)
             case Span(lo, hi) => if lo < U32 && hi < U32 then Ok((lo, hi)) else Err(BadRange))
  {
    hide Digits, ParseU32, SplitOnce;
    match r
    case Star =>
    case One(v) =>
      NotStar(v, "");
      assert Digits(v) + "" == Digits(v);
      DigitsOnly(v, '-');
      CutExactly(Digits(v), '-', "");
      NumberRoundTrip(v);
    case Span(lo, hi) =>
      NotStar(lo, ['-'] + Digits(hi));
      assert Digits(lo) + (['-'] + Digits(hi)) == RangeWritten(r);
      DigitsOnly(lo, '-');
      CutExactly(Digits(lo), '-', Digits(hi));
      NumberRoundTrip(lo);
      NumberRoundTrip(hi);
  }

  /** Every part that can be written is read as it is meant, or refused for what is wrong with it. */
  lemma PartRoundTrip(r: Range, step: Option<nat>, min: nat, max: nat)
    ensures ReadPart(PartWritten(r, step), min, max) == PartMeant(r, step, min, max)
  {
    hide Digits, ParseU32, SplitOnce, ReadRange, RangeWritten;
    RangePlain(r);
    RangeReads(r, min, max);
    CutExactly(RangeWritten(r), '/', if step.Some? then Digits(step.value) else "");
    if step.Some? {
      NumberRoundTrip(step.value);
    }
  }

  // ---------------------------------------------------------------- fields

  function PartsWritten(parts: seq<Part>): seq<string> {
    if parts == [] then []
    else [PartWritten(Span(parts[0].lo, parts[0].hi), Some(parts[0].step))] + PartsWritten(parts[1..])
  }

  predicate Within(p: Part, min: nat, max: nat) {
    min <= p.lo <= p.hi <= max && 0 < p.step < U32
  }

  lemma {:induction false} PartsRead(parts: seq<Part>, min: nat, max: nat)
    requires max < 64 && forall p :: p in parts ==> Within(p, min, max)
    ensures |PartsWritten(parts)| == |parts|
    ensures ReadParts(PartsWritten(parts), min, max) == Ok(parts)
    ensures forall t :: t in PartsWritten(parts) ==> ',' !in t
    decreases |parts|
  {
    hide ReadPart, PartWritten;
    if parts != [] {
      var p := parts[0];
      assert p in parts;
      PartRoundTrip(Span(p.lo, p.hi), Some(p.step), min, max);
      PartPlain(Span(p.lo, p.hi), Some(p.step));
      PartsRead(parts[1..], min, max);
      var texts := PartsWritten(parts);
      assert texts[1..] == PartsWritten(parts[1..]);
      assert parts == [p] + parts[1..];
    }
  }

  /** Every field that can be written is read back part by part. */
  lemma FieldRoundTrip(parts: seq<Part>, min: nat, max: nat)
    requires parts != [] && max < 64 && forall p :: p in parts ==> Within(p, min, max)
    ensures PartsWritten(parts) != [] && PartsOf(Join(PartsWritten(parts), ','), min, max) == Ok(parts)
  {
    hide ReadParts, PartsWritten;
    PartsRead(parts, min, max);
    SplitJoin(PartsWritten(parts), ',');
  }

  /** An expression is accepted if and only if it has five fields and every part of each reads within its bounds. */
  lemma ParsesExactly(fields: seq<string>)
    ensures ParseResult(fields).Ok? <==>
              && |fields| == 5
              && PartsOf(fields[0], 0, 59).Ok? && PartsOf(fields[1], 0, 23).Ok? && PartsOf(fields[2], 1, 31).Ok?
              && PartsOf(fields[3], 1, 12).Ok? && PartsOf(SevensToZeros(fields[4]), 0, 6).Ok?
  {
    hide PartsOf, FieldMask;
    if |fields| == 5 {
      AcceptedExactly(fields[0], 0, 59);
      AcceptedExactly(fields[1], 0, 23);
      AcceptedExactly(fields[2], 1, 31);
      AcceptedExactly(fields[3], 1, 12);
      AcceptedExactly(SevensToZeros(fields[4]), 0, 6);
    }
  }

  // ---------------------------------------------------------------- a daily expression

  lemma NumberField(v: nat, min: nat, max: nat)
    requires min <= v <= max < 64
    ensures PartsOf(Digits(v), min, max) == Ok([Part(v, v, 1)])
  {
    hide Digits, ReadPart;
    PartRoundTrip(One(v), None, min, max);
    PartPlain(One(v), None);
    OnePart(Digits(v), min, max);
  }

  lemma OnOne(v: nat, i: nat)
    ensures Allows([Part(v, v, 1)], i) <==> i == v
  {
    assert Part(v, v, 1) in [Part(v, v, 1)];
    assert i == v ==> On(Part(v, v, 1), i);
  }

  lemma EveryDay(min: nat, max: nat, i: nat)
    requires min <= i <= max
    ensures Allows([Part(min, max, 1)], i)
  {
    assert Part(min, max, 1) in [Part(min, max, 1)] && On(Part(min, max, 1), i);
  }

  lemma EveryWeekday(w: nat)
    requires w < 7
    ensures AllowsDay([Part(0, 7, 1)], w)
  {
    assert Part(0, 7, 1) in [Part(0, 7, 1)] && OnDay(Part(0, 7, 1), w);
  }

  /** An hour and a minute with three stars fire once a day, at that hour and minute and for that minute. */
  lemma DailyFires(hour: nat, minute: nat, days: nat, h: nat, m: nat, s: nat)
    requires hour < 24 && minute < 60 && h < 24 && m < 60 && s < 60
    ensures var fields := [Digits(minute), Digits(hour), "*", "*", "*"];
            && ParseResult(fields).Ok?
            && (Matches(ParseResult(fields).value, days * 86400 + h * 3600 + m * 60 + s) <==> h == hour && m == minute)
  {
    hide Digits, PartsOf, Matches, ParseResult, Allows, AllowsDay, MinuteOf, HourOf, Civil, AllSurvive;
    var fields := [Digits(minute), Digits(hour), "*", "*", "*"];
    var secs := days * 86400 + h * 3600 + m * 60 + s;
    var sched := Schedule([Part(minute, minute, 1)], [Part(hour, hour, 1)], [Part(1, 31, 1)], [Part(1, 12, 1)],
      [Part(0, 7, 1)], true, true);
    NumberField(minute, 0, 59);
    NumberField(hour, 0, 23);
    StarReads(1, 31);
    StarReads(1, 12);
    StarReads(0, 7);
    StarSurvives();
    MatchesRefinesSets(fields, sched, secs);
    TimeOfDay(days, h, m, s);
    OnOne(minute, m);
    OnOne(hour, h);
    var t := DateAt(secs);
    EveryDay(1, 31, t.day);
    EveryDay(1, 12, t.month);
    EveryWeekday(t.weekday);
  }
}
