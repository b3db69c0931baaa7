/**
What a cron expression says, read from the text its author wrote, and when the
parsed expression fires at exactly the times it says.

Two rules of the parser stand in between.  Every seven of the day-of-week field is
rewritten to zero before it is parsed, so that seven can stand for Sunday; this
module says for which parts the rewriting keeps the meaning.  A day field that
starts with a star counts as unrestricted whatever its step; this module says for
which expressions that makes no difference at any time.
*/
module Schedules {
  import opened Options
  import opened Bits
  import opened Calendar
  import opened Cron

  // ---------------------------------------------------------------- rewriting sevens

  lemma {:induction false} Rewritten(s: string)
    ensures |SevensToZeros(s)| == |s|
    ensures forall i :: 0 <= i < |s| ==> SevensToZeros(s)[i] == if s[i] == '7' then '0' else s[i]
    decreases |s|
  {
    if s != [] {
      Rewritten(s[1..]);
    }
  }

  lemma RewrittenCut(s: string, i: nat)
    requires i <= |s|
    ensures |SevensToZeros(s)| == |s|
    ensures SevensToZeros(s)[..i] == SevensToZeros(s[..i]) && SevensToZeros(s)[i..] == SevensToZeros(s[i..])
  {
    Rewritten(s);
    Rewritten(s[..i]);
    Rewritten(s[i..]);
  }

  lemma {:induction false} RewrittenIndex(s: string, c: char)
    requires c != '7' && c != '0'
    ensures IndexOf(SevensToZeros(s), c) == IndexOf(s, c)
    decreases |s|
  {
    if s != [] {
      RewrittenIndex(s[1..], c);
      assert SevensToZeros(s)[1..] == SevensToZeros(s[1..]);
    }
  }

  function RewriteEach(texts: seq<string>): seq<string> {
    if texts == [] then [] else [SevensToZeros(texts[0])] + RewriteEach(texts[1..])
  }

  lemma RewriteCons(x: string, texts: seq<string>)
    ensures RewriteEach([x] + texts) == [SevensToZeros(x)] + RewriteEach(texts)
  {
    assert ([x] + texts)[1..] == texts;
  }

  /** Rewriting does not move the separators. */
  lemma RewrittenSplitOnce(s: string, c: char)
    requires c != '7' && c != '0'
    ensures SplitOnce(SevensToZeros(s), c) ==
            var cut := SplitOnce(s, c);
            if cut.None? then None else Some((SevensToZeros(cut.value.0), SevensToZeros(cut.value.1)))
  {
    hide SevensToZeros, IndexOf;
    RewrittenIndex(s, c);
    Rewritten(s);
    var i := IndexOf(s, c);
    if i < |s| {
      RewrittenCut(s, i);
      RewrittenCut(s, i + 1);
    }
  }

  lemma {:induction false} RewrittenSplit(s: string, c: char)
    requires c != '7' && c != '0'
    ensures Split(SevensToZeros(s), c) == RewriteEach(Split(s, c))
    decreases |s|
  {
    hide SevensToZeros, IndexOf;
    RewrittenIndex(s, c);
    Rewritten(s);
    var i := IndexOf(s, c);
    if i < |s| {
      RewrittenCut(s, i);
      RewrittenCut(s, i + 1);
      RewrittenSplit(s[i + 1..], c);
      RewriteCons(s[..i], Split(s[i + 1..], c));
    }
  }

  lemma RewrittenStar(field: string)
    ensures SevensToZeros(field) == "*" <==> field == "*"
    ensures IsStar(SevensToZeros(field)) <==> IsStar(field)
  {
    Rewritten(field);
    var g := SevensToZeros(field);
    assert ',' in field <==> ',' in g by {
      assert forall i :: 0 <= i < |field| ==> (field[i] == ',' <==> g[i] == ',');
    }
    assert "*/" <= field <==> |field| >= 2 && field[0] == '*' && field[1] == '/';
    assert "*/" <= g <==> |g| >= 2 && g[0] == '*' && g[1] == '/';
    assert field == "*" <==> |field| == 1 && field[0] == '*';
    assert g == "*" <==> |g| == 1 && g[0] == '*';
  }

  /** What rewriting does to a number: it never grows, and of the numbers up to seven only seven changes. */
  lemma {:induction false} RewrittenDecimal(s: string)
    requires forall c :: c in s ==> IsDigit(c)
    ensures forall c :: c in SevensToZeros(s) ==> IsDigit(c)
    ensures Decimal(SevensToZeros(s)) <= Decimal(s)
    ensures Decimal(s) <= 7 ==> Decimal(SevensToZeros(s)) == if Decimal(s) == 7 then 0 else Decimal(s)
    decreases |s|
  {
    Rewritten(s);
    var g := SevensToZeros(s);
    forall c | c in g
      ensures IsDigit(c)
    {
      var i :| 0 <= i < |g| && g[i] == c;
      assert IsDigit(s[i]);
    }
    if s != [] {
      var n := |s| - 1;
      RewrittenCut(s, n);
      RewrittenDecimal(s[..n]);
      assert g[..n] == SevensToZeros(s[..n]);
      assert IsDigit(s[n]);
    }
  }

  lemma RewrittenNumber(s: string)
    requires ParseU32(s).Some?
    ensures ParseU32(SevensToZeros(s)).Some? && ParseU32(SevensToZeros(s)).value <= ParseU32(s).value
    ensures ParseU32(s).value <= 7 ==>
              ParseU32(SevensToZeros(s)).value == if ParseU32(s).value == 7 then 0 else ParseU32(s).value
  {
    hide Decimal;
    Rewritten(s);
    var g := SevensToZeros(s);
    if s[0] == '+' {
      RewrittenCut(s, 1);
      assert g[1..] == SevensToZeros(s[1..]);
      Rewritten(s[1..]);
      RewrittenDecimal(s[1..]);
    } else {
      RewrittenDecimal(s);
      assert g[0] != '+';
    }
  }

  // ---------------------------------------------------------------- a part of a day-of-week field

  /** The weekday `w` lies on a range written with the numbers zero to seven, seven being Sunday again. */
  predicate OnDay(p: Part, w: nat)
    requires p.step > 0
  {
    On(p, w) || (w == 0 && On(p, 7))
  }

  function RangeText(text: string): string {
    var cut := SplitOnce(text, '/');
    if cut.None? then text else cut.value.0
  }

  /** The step that is left once its sevens are zeros. */
  function ZeroedStep(text: string): nat {
    var cut := SplitOnce(text, '/');
    if cut.None? then 1
    else
      var step := ParseU32(SevensToZeros(cut.value.1));
      if step.None? then 0 else step.value
  }

  /** The part as the author wrote it. */
  function AsWritten(text: string): Result<Part> {
    ReadPart(text, 0, 7)
  }

  /** The part as the parser reads it. */
  function AsParsed(text: string): Result<Part> {
    ReadPart(SevensToZeros(text), 0, 6)
  }

  lemma RewrittenStep(text: string)
    requires ReadStep(text).Ok?
    ensures ReadStep(text).value.0 == RangeText(text) && ZeroedStep(text) <= ReadStep(text).value.1
    ensures ReadStep(SevensToZeros(text)) ==
            if ZeroedStep(text) == 0 then Err(ZeroStep) else Ok((SevensToZeros(RangeText(text)), ZeroedStep(text)))
  {
    hide SevensToZeros, ParseU32, SplitOnce;
    RewrittenSplitOnce(text, '/');
    var cut := SplitOnce(text, '/');
    if cut.Some? {
      RewrittenNumber(cut.value.1);
    }
  }

  function Zeroed(v: nat): nat {
    if v == 7 then 0 else v
  }

  lemma RewrittenRange(range: string)
    requires ReadRange(range, 0, 7).Ok? && ReadRange(range, 0, 7).value.0 <= 7 && ReadRange(range, 0, 7).value.1 <= 7
    ensures var r := ReadRange(range, 0, 7).value;
            ReadRange(SevensToZeros(range), 0, 6) == Ok(if range == "*" then (0, 6) else (Zeroed(r.0), Zeroed(r.1)))
  {
    hide SevensToZeros, ParseU32, SplitOnce;
    RewrittenStar(range);
    if range != "*" {
      RewrittenSplitOnce(range, '-');
      var cut := SplitOnce(range, '-');
      if cut.Some? {
        RewrittenNumber(cut.value.0);
        RewrittenNumber(cut.value.1);
      } else {
        RewrittenNumber(range);
      }
    }
  }

  /** What the parser makes of a part that is fine as written. */
  lemma RewrittenPart(text: string)
    requires AsWritten(text).Ok?
    ensures var p, star := AsWritten(text).value, RangeText(text) == "*";
            var lo, hi := Zeroed(p.lo), if star then 6 else Zeroed(p.hi);
            && (star ==> p.lo == 0 && p.hi == 7) && ZeroedStep(text) <= p.step
            && AsParsed(text) == (if ZeroedStep(text) == 0 then Err(ZeroStep)
                                  else if lo > hi then Err(OutOfRange)
                                  else Ok(Part(lo, hi, ZeroedStep(text))))
  {
    hide SevensToZeros, ReadStep, ReadRange, ZeroedStep, RangeText;
    RewrittenStep(text);
    RewrittenRange(RangeText(text));
    StarRange(RangeText(text));
  }

  lemma StarRange(range: string)
    ensures range == "*" ==> ReadRange(range, 0, 7) == Ok((0, 7))
  {
  }

  /** The end of the range once a bare star is taken to end on Saturday. */
  function LastWritten(text: string): nat
    requires AsWritten(text).Ok?
  {
    if RangeText(text) == "*" then 6 else AsWritten(text).value.hi
  }

  /**
  A part survives the rewriting of its sevens.  The step must not lose its value, or
  must not matter before and after; a range that ends on seven must be Sunday alone,
  or start on Sunday and step past the week.
  */
  predicate SurvivesRewriting(text: string)
    requires AsWritten(text).Ok?
  {
    var p, step, hi := AsWritten(text).value, ZeroedStep(text), LastWritten(text);
    step > 0 && if hi < 7 then step == p.step || step > hi - p.lo else p.lo == 7 || (p.lo == 0 && p.step > 7)
  }

  ghost predicate SameDays(text: string)
    requires AsWritten(text).Ok? && AsWritten(text).value.step > 0
  {
    && AsParsed(text).Ok? && AsParsed(text).value.step > 0
    && forall w: nat {:trigger OnDay(AsWritten(text).value, w)} :: w < 7 ==>
         (On(AsParsed(text).value, w) <==> OnDay(AsWritten(text).value, w))
  }

  lemma WrittenProper(text: string)
    requires AsWritten(text).Ok?
    ensures var p := AsWritten(text).value; 0 < p.step < U32 && p.lo <= p.hi <= 7
  {
    ReadPartProper(text, 0, 7);
  }

  /** Shortening the step of a range within the week. */
  lemma SameSteps(lo: nat, hi: nat, step: nat, step': nat)
    requires lo <= hi < 7 && 0 < step' <= step
    ensures (forall w: nat {:trigger On(Part(lo, hi, step), w)} :: w < 7 ==>
               (On(Part(lo, hi, step'), w) <==> On(Part(lo, hi, step), w)))
        <==> step' == step || step' > hi - lo
  {
    hide On;
    if step' != step && step' <= hi - lo {
      FirstStep(lo, hi, step');
      BelowStep(lo, hi, step, lo + step');
      assert !On(Part(lo, hi, step), lo + step');
    } else if step' != step {
      forall w: nat | w < 7
        ensures On(Part(lo, hi, step'), w) <==> On(Part(lo, hi, step), w)
      {
        if w <= hi {
          BelowStep(lo, hi, step, w);
          BelowStep(lo, hi, step', w);
        } else {
          Outside(lo, hi, step, w);
          Outside(lo, hi, step', w);
        }
      }
    }
  }

  /** One step from the start is on the range if it is within it. */
  lemma FirstStep(lo: nat, hi: nat, step: nat)
    requires 0 < step && lo + step <= hi
    ensures On(Part(lo, hi, step), lo + step)
  {
    ModStep(step, step);
  }

  /** Before the first step only the start is on the range. */
  lemma BelowStep(lo: nat, hi: nat, step: nat, w: nat)
    requires lo <= hi && w <= hi && 0 < step && w < lo + step
    ensures On(Part(lo, hi, step), w) <==> w == lo
  {
    if w > lo {
      SmallMod(w - lo, step);
    }
  }

  lemma Outside(lo: nat, hi: nat, step: nat, w: nat)
    requires step > 0 && w > hi
    ensures !On(Part(lo, hi, step), w)
  {
  }

  /** Sunday again at the end of a star adds nothing. */
  lemma StarDays(step: nat, w: nat)
    requires step > 0 && w < 7
    ensures OnDay(Part(0, 7, step), w) <==> On(Part(0, 6, step), w)
  {
  }

  /** A part that is fine as written allows the same weekdays after the rewriting if and only if it survives it. */
  lemma RewritingExactly(text: string)
    requires AsWritten(text).Ok?
    ensures AsWritten(text).value.step > 0 && (SameDays(text) <==> SurvivesRewriting(text))
  {
    hide AsWritten, AsParsed, ZeroedStep, RangeText, On;
    RewrittenPart(text);
    WrittenProper(text);
    var p, step := AsWritten(text).value, ZeroedStep(text);
    if step > 0 {
      if LastWritten(text) < 7 {
        SameSteps(p.lo, LastWritten(text), p.step, step);
        WithinWeek(text);
      } else {
        ToSunday(text);
      }
    }
  }

  lemma WithinWeek(text: string)
    requires AsWritten(text).Ok? && AsWritten(text).value.step > 0 && ZeroedStep(text) > 0 && LastWritten(text) < 7
    ensures var p, hi := AsWritten(text).value, LastWritten(text);
            SameDays(text) <==>
              forall w: nat {:trigger On(Part(p.lo, hi, p.step), w)} :: w < 7 ==>
                (On(Part(p.lo, hi, ZeroedStep(text)), w) <==> On(Part(p.lo, hi, p.step), w))
  {
    hide AsWritten, AsParsed, ZeroedStep, RangeText;
    RewrittenPart(text);
    WrittenProper(text);
    var p, hi := AsWritten(text).value, LastWritten(text);
    assert AsParsed(text) == Ok(Part(p.lo, hi, ZeroedStep(text)));
    forall w: nat | w < 7
      ensures OnDay(p, w) <==> On(Part(p.lo, hi, p.step), w)
    {
      if RangeText(text) == "*" {
        StarDays(p.step, w);
      } else {
        assert p == Part(p.lo, hi, p.step);
      }
    }
    if forall w: nat {:trigger On(Part(p.lo, hi, p.step), w)} :: w < 7 ==> (On(Part(p.lo, hi, ZeroedStep(text)), w) <==> On(Part(p.lo, hi, p.step), w)) {
      forall w: nat | w < 7
        ensures On(AsParsed(text).value, w) <==> OnDay(p, w)
      {
        assert On(Part(p.lo, hi, p.step), w) <==> OnDay(p, w);
      }
    }
    if SameDays(text) {
      forall w: nat | w < 7
        ensures On(Part(p.lo, hi, ZeroedStep(text)), w) <==> On(Part(p.lo, hi, p.step), w)
      {
        assert On(AsParsed(text).value, w) <==> OnDay(p, w);
      }
    }
  }

  lemma ToSunday(text: string)
    requires AsWritten(text).Ok? && AsWritten(text).value.step > 0 && ZeroedStep(text) > 0 && LastWritten(text) >= 7
    ensures var p := AsWritten(text).value; SameDays(text) <==> p.lo == 7 || (p.lo == 0 && p.step > 7)
  {
    hide AsWritten, AsParsed, ZeroedStep, RangeText, On;
    RewrittenPart(text);
    WrittenProper(text);
    var p, step := AsWritten(text).value, ZeroedStep(text);
    if p.lo == 7 || p.lo == 0 {
      assert p == Part(p.lo, 7, p.step) && AsParsed(text) == Ok(Part(0, 0, step));
      if p.lo == 0 && p.step <= 7 {
        SevenIsZeroed(text);
        FirstStep(0, 7, p.step);
        Outside(0, 0, step, p.step);
        assert OnDay(p, p.step);
      } else {
        forall w: nat | w < 7
          ensures On(Part(0, 0, step), w) <==> OnDay(p, w)
        {
          SundayOnly(p.lo, p.step, step, w);
        }
      }
    }
  }

  /** Seven alone, or zero with a step past the week, is Sunday alone. */
  lemma SundayOnly(lo: nat, step: nat, step': nat, w: nat)
    requires step > 0 && step' > 0 && w < 7 && (lo == 7 || (lo == 0 && step > 7))
    ensures On(Part(0, 0, step'), w) <==> OnDay(Part(lo, 7, step), w)
  {
    hide On;
    if w == 0 {
      BelowStep(0, 0, step', 0);
    } else {
      Outside(0, 0, step', w);
    }
    BelowStep(lo, 7, step, 7);
    BelowStep(lo, 7, step, w);
  }

  /** A step of seven is rewritten to zero. */
  lemma SevenIsZeroed(text: string)
    requires AsWritten(text).Ok? && ZeroedStep(text) > 0
    ensures AsWritten(text).value.step != 7
  {
    var cut := SplitOnce(text, '/');
    if cut.Some? {
      RewrittenNumber(cut.value.1);
    }
  }

  lemma {:induction false} NoSevenStays(s: string)
    requires '7' !in s
    ensures SevensToZeros(s) == s
    decreases |s|
  {
    if s != [] {
      NoSevenStays(s[1..]);
    }
  }

  lemma NoSevenNumber(s: string)
    requires '7' !in s
    ensures ParseU32(s) != Some(7)
  {
    NoSevenStays(s);
    if ParseU32(s).Some? {
      RewrittenNumber(s);
    }
  }

  /** A part without a seven is accepted by the parser if and only if it is fine as written. */
  lemma SevensOnly(text: string)
    requires '7' !in text
    ensures AsParsed(text).Ok? <==> AsWritten(text).Ok?
  {
    hide ParseU32;
    NoSevenStays(text);
    var range := RangeText(text);
    assert '7' !in range;
    var cut := SplitOnce(range, '-');
    if cut.Some? {
      NoSevenNumber(cut.value.1);
    }
    NoSevenNumber(range);
  }

  // ---------------------------------------------------------------- the day-of-week field

  /** The weekday is allowed by a field written with the numbers zero to seven. */
  predicate AllowsDay(parts: seq<Part>, w: nat)
    requires forall p :: p in parts ==> p.step > 0
  {
    exists p :: p in parts && OnDay(p, w)
  }

  ghost predicate AllSurvive(texts: seq<string>) {
    forall text :: text in texts ==> AsWritten(text).Ok? && SurvivesRewriting(text)
  }

  ghost predicate SameWeek(written: seq<Part>, parsed: seq<Part>) {
    && (forall p :: p in written ==> Proper(p)) && (forall p :: p in parsed ==> Proper(p))
    && forall w: nat {:trigger AllowsDay(written, w)} :: w < 7 ==> (Allows(parsed, w) <==> AllowsDay(written, w))
  }

  lemma SameWeekCons(p: Part, q: Part, written: seq<Part>, parsed: seq<Part>)
    requires Proper(p) && Proper(q) && SameWeek(written, parsed)
    requires forall w: nat {:trigger OnDay(p, w)} :: w < 7 ==> (On(q, w) <==> OnDay(p, w))
    ensures SameWeek([p] + written, [q] + parsed)
  {
    hide On;
    forall w: nat | w < 7
      ensures Allows([q] + parsed, w) <==> AllowsDay([p] + written, w)
    {
      AllowsCons(q, parsed, w);
      AllowsDayCons(p, written, w);
      assert Allows(parsed, w) <==> AllowsDay(written, w);
    }
  }

  lemma AllowsCons(p: Part, parts: seq<Part>, w: nat)
    requires p.step > 0 && forall q :: q in parts ==> q.step > 0
    ensures Allows([p] + parts, w) <==> On(p, w) || Allows(parts, w)
  {
    hide On;
    assert p in [p] + parts;
  }

  lemma AllowsDayCons(p: Part, parts: seq<Part>, w: nat)
    requires p.step > 0 && forall q :: q in parts ==> q.step > 0
    ensures AllowsDay([p] + parts, w) <==> OnDay(p, w) || AllowsDay(parts, w)
  {
    hide OnDay;
    assert p in [p] + parts;
  }

  lemma {:induction false} TextsRewriting(texts: seq<string>)
    requires ReadParts(texts, 0, 7).Ok? && AllSurvive(texts)
    ensures ReadParts(RewriteEach(texts), 0, 6).Ok?
    ensures SameWeek(ReadParts(texts, 0, 7).value, ReadParts(RewriteEach(texts), 0, 6).value)
    ensures Tame(ReadParts(texts, 0, 7).value) ==> Tame(ReadParts(RewriteEach(texts), 0, 6).value)
    decreases |texts|
  {
    hide ReadPart, SurvivesRewriting, SameWeek, Proper, On;
    PartsProper(texts, 0, 7);
    if texts == [] {
      NothingSame();
    } else {
      var text := texts[0];
      assert text in texts;
      RewritingExactly(text);
      RewrittenPart(text);
      ReadPartProper(text, 0, 7);
      ReadPartProper(SevensToZeros(text), 0, 6);
      TextsRewriting(texts[1..]);
      assert RewriteEach(texts) == [SevensToZeros(text)] + RewriteEach(texts[1..]);
      assert RewriteEach(texts)[1..] == RewriteEach(texts[1..]);
      SameWeekCons(AsWritten(text).value, AsParsed(text).value, ReadParts(texts[1..], 0, 7).value,
        ReadParts(RewriteEach(texts[1..]), 0, 6).value);
      TameCons(AsWritten(text).value, ReadParts(texts[1..], 0, 7).value);
      TameCons(AsParsed(text).value, ReadParts(RewriteEach(texts[1..]), 0, 6).value);
    }
  }

  lemma NothingSame()
    ensures SameWeek([], [])
  {
    assert forall w: nat :: !Allows([], w) && !AllowsDay([], w);
  }

  lemma TameCons(p: Part, parts: seq<Part>)
    ensures Tame([p] + parts) <==> Proper(p) && p.lo + p.step < U32 && Tame(parts)
  {
    assert p in [p] + parts;
  }

  /** A field each of whose parts survives means the same weekdays parsed as written. */
  lemma FieldRewriting(field: string)
    requires PartsOf(field, 0, 7).Ok? && AllSurvive(Split(field, ','))
    ensures PartsOf(SevensToZeros(field), 0, 6).Ok?
    ensures SameWeek(PartsOf(field, 0, 7).value, PartsOf(SevensToZeros(field), 0, 6).value)
    ensures Tame(PartsOf(field, 0, 7).value) ==> Tame(PartsOf(SevensToZeros(field), 0, 6).value)
  {
    hide ReadParts, SameWeek, Tame, AllSurvive;
    RewrittenSplit(field, ',');
    TextsRewriting(Split(field, ','));
  }

  // ---------------------------------------------------------------- what an expression says

  /** The five fields as written, and which day fields start with a star. */
  datatype Schedule = Schedule(minute: seq<Part>, hour: seq<Part>, dom: seq<Part>, month: seq<Part>, dow: seq<Part>,
                               domStar: bool, dowStar: bool)

  ghost predicate Describes(fields: seq<string>, s: Schedule) {
    && |fields| == 5
    && PartsOf(fields[0], 0, 59) == Ok(s.minute) && PartsOf(fields[1], 0, 23) == Ok(s.hour)
    && PartsOf(fields[2], 1, 31) == Ok(s.dom) && PartsOf(fields[3], 1, 12) == Ok(s.month)
    && PartsOf(fields[4], 0, 7) == Ok(s.dow)
    && s.domStar == IsStar(fields[2]) && s.dowStar == IsStar(fields[4])
  }

  ghost predicate AllTame(s: Schedule) {
    Tame(s.minute) && Tame(s.hour) && Tame(s.dom) && Tame(s.month) && Tame(s.dow)
  }

  /** The time of day and the month fit; what is left is the day. */
  ghost predicate Timely(s: Schedule, secs: nat)
    requires AllTame(s)
  {
    Allows(s.minute, MinuteOf(secs)) && Allows(s.hour, HourOf(secs)) && Allows(s.month, DateAt(secs).month)
  }

  /** The times the fields describe: all of them hold, except that of two restricted day fields either suffices. */
  ghost predicate Due(s: Schedule, secs: nat)
    requires AllTame(s)
  {
    var domHit, dowHit := Allows(s.dom, DateAt(secs).day), AllowsDay(s.dow, DateAt(secs).weekday);
    Timely(s, secs) && if s.domStar || s.dowStar then domHit && dowHit else domHit || dowHit
  }

  /** The times the matching rule picks: a field that starts with a star is not asked. */
  ghost predicate Fires(s: Schedule, secs: nat)
    requires AllTame(s)
  {
    var domHit, dowHit := Allows(s.dom, DateAt(secs).day), AllowsDay(s.dow, DateAt(secs).weekday);
    && Timely(s, secs)
    && if s.domStar && s.dowStar then true else if s.dowStar then domHit else if s.domStar then dowHit else domHit || dowHit
  }

  /** Parsed into masks, narrowed and tested bit by bit, the expression fires by the rule on sets. */
  lemma MatchesFires(fields: seq<string>, s: Schedule, secs: nat)
    requires Describes(fields, s) && AllTame(s) && AllSurvive(Split(fields[4], ','))
    ensures ParseResult(fields).Ok? && (Matches(ParseResult(fields).value, secs) <==> Fires(s, secs))
  {
    hide FieldMask, And, Narrow, Pow2, Allows, AllowsDay, PartsOf, Tame, AllSurvive, IsStar;
    var t := DateAt(secs);
    FieldRewriting(fields[4]);
    MinuteReads(fields[0], MinuteOf(secs));
    FieldReads(fields[1], 0, 23, 32, HourOf(secs));
    FieldReads(fields[2], 1, 31, 32, t.day);
    FieldReads(fields[3], 1, 12, 16, t.month);
    FieldReads(SevensToZeros(fields[4]), 0, 6, 8, t.weekday);
    WeekdaySame(s.dow, PartsOf(SevensToZeros(fields[4]), 0, 6).value, t.weekday);
    RewrittenStar(fields[4]);
    StarFlags(fields);
  }

  lemma WeekdaySame(written: seq<Part>, parsed: seq<Part>, w: nat)
    requires SameWeek(written, parsed) && w < 7
    ensures (forall p :: p in written ==> p.step > 0) && (forall p :: p in parsed ==> p.step > 0)
    ensures Allows(parsed, w) <==> AllowsDay(written, w)
  {
  }

  lemma StarFlags(fields: seq<string>)
    requires |fields| == 5 && ParseResult(fields).Ok?
    ensures ParseResult(fields).value.domStar == IsStar(fields[2])
    ensures ParseResult(fields).value.dowStar == IsStar(SevensToZeros(fields[4]))
  {
  }

  // ---------------------------------------------------------------- stars with a step

  /** Some month of the schedule has a day `d` at times. */
  ghost predicate Reachable(s: Schedule, d: nat)
    requires AllTame(s)
  {
    exists m: nat :: 1 <= m <= 12 && Allows(s.month, m) && 1 <= d <= MostDays(m)
  }

  /** The starred day fields leave out no day the schedule can meet. */
  ghost predicate StarsCover(s: Schedule)
    requires AllTame(s)
  {
    && (s.domStar ==> forall d :: Reachable(s, d) ==> Allows(s.dom, d))
    && (s.dowStar && (exists d :: Reachable(s, d) && (s.domStar || Allows(s.dom, d))) ==>
          forall w: nat :: w < 7 ==> AllowsDay(s.dow, w))
  }

  lemma DayReachable(s: Schedule, secs: nat)
    requires AllTame(s) && Timely(s, secs)
    ensures Reachable(s, DateAt(secs).day)
  {
    hide Civil, Allows;
    CivilValid(secs / 60 / 60 / 24);
    WithinMost(DateAt(secs).year, DateAt(secs).month);
  }

  /** Covering stars never make a difference. */
  lemma CoveredFires(s: Schedule, secs: nat)
    requires AllTame(s) && StarsCover(s)
    ensures Fires(s, secs) <==> Due(s, secs)
  {
    hide Allows, AllowsDay, DateAt, Reachable;
    if Timely(s, secs) {
      DayReachable(s, secs);
    }
  }

  /** Days, hours, minutes and seconds are read back from the number of seconds they make. */
  lemma TimeOfDay(days: nat, hour: nat, minute: nat, second: nat)
    requires hour < 24 && minute < 60 && second < 60
    ensures var secs := days * 86400 + hour * 3600 + minute * 60 + second;
            MinuteOf(secs) == minute && HourOf(secs) == hour && DateAt(secs) == Civil(days)
            && secs / 60 / 60 / 24 == days
  {
    hide Civil;
    var secs := days * 86400 + hour * 3600 + minute * 60 + second;
    assert secs / 60 == days * 1440 + hour * 60 + minute;
    assert secs / 60 / 60 == days * 24 + hour;
  }

  /** A field has a value it allows. */
  lemma FirstValue(field: string, min: nat, max: nat) returns (v: nat)
    requires max < 64 && PartsOf(field, min, max).Ok?
    ensures (forall p :: p in PartsOf(field, min, max).value ==> p.step > 0)
    ensures min <= v <= max && Allows(PartsOf(field, min, max).value, v)
  {
    PartsProper(Split(field, ','), min, max);
    var parts := PartsOf(field, min, max).value;
    v := parts[0].lo;
    assert parts[0] in parts && On(parts[0], v);
  }

  lemma FirstDay(field: string) returns (w: nat)
    requires PartsOf(field, 0, 7).Ok?
    ensures (forall p :: p in PartsOf(field, 0, 7).value ==> p.step > 0)
    ensures w < 7 && AllowsDay(PartsOf(field, 0, 7).value, w)
  {
    hide On;
    var v := FirstValue(field, 0, 7);
    w := Zeroed(v);
    var p :| p in PartsOf(field, 0, 7).value && On(p, v);
    assert OnDay(p, w);
  }

  /** A time that fits the schedule on any day of one of its months and any weekday. */
  lemma TimelyOn(fields: seq<string>, s: Schedule, d: nat, w: nat) returns (secs: nat)
    requires Describes(fields, s) && AllTame(s) && Reachable(s, d) && w < 7
    ensures Timely(s, secs) && DateAt(secs).day == d && DateAt(secs).weekday == w
  {
    hide Civil, Allows, PartsOf, MinuteOf, HourOf, MostDays, IsStar;
    var minute := FirstValue(fields[0], 0, 59);
    var hour := FirstValue(fields[1], 0, 23);
    var m: nat :| 1 <= m <= 12 && Allows(s.month, m) && 1 <= d <= MostDays(m);
    var days := DateOccurs(m, d, w);
    secs := days * 86400 + hour * 3600 + minute * 60 + 0;
    TimeOfDay(days, hour, minute, 0);
  }

  /** A star that leaves out a reachable day makes a difference at some time. */
  lemma UncoveredFires(fields: seq<string>, s: Schedule) returns (secs: nat)
    requires Describes(fields, s) && AllTame(s) && !StarsCover(s)
    ensures Fires(s, secs) && !Due(s, secs)
  {
    hide Allows, AllowsDay, DateAt, Reachable, PartsOf, IsStar, Timely;
    if s.domStar && exists d :: Reachable(s, d) && !Allows(s.dom, d) {
      var d :| Reachable(s, d) && !Allows(s.dom, d);
      var w := FirstDay(fields[4]);
      secs := TimelyOn(fields, s, d, w);
    } else {
      var d :| Reachable(s, d) && (s.domStar || Allows(s.dom, d));
      var w: nat :| w < 7 && !AllowsDay(s.dow, w);
      secs := TimelyOn(fields, s, d, w);
    }
  }

  /**
  For every expression whose day-of-week parts survive the rewriting: it fires at
  exactly the times its text describes, at all times, if and only if its starred day
  fields leave out no day it can meet.
  */
  lemma FiresExactly(fields: seq<string>, s: Schedule)
    requires Describes(fields, s) && AllTame(s) && AllSurvive(Split(fields[4], ','))
    ensures ParseResult(fields).Ok?
    ensures (forall secs: nat {:trigger Due(s, secs)} :: Matches(ParseResult(fields).value, secs) <==> Due(s, secs))
        <==> StarsCover(s)
  {
    hide Describes, AllTame, StarsCover, Due, Fires, Matches, ParseResult, AllSurvive;
    MatchesFires(fields, s, 0);
    var e := ParseResult(fields).value;
    if StarsCover(s) {
      forall secs: nat
        ensures Matches(e, secs) <==> Due(s, secs)
      {
        MatchesFires(fields, s, secs);
        CoveredFires(s, secs);
      }
    } else {
      var secs := UncoveredFires(fields, s);
      MatchesFires(fields, s, secs);
      assert Matches(e, secs) && !Due(s, secs);
    }
  }

  // ---------------------------------------------------------------- which expressions those are

  lemma {:induction false} NotFound(s: string, c: char)
    requires c !in s
    ensures IndexOf(s, c) == |s|
    decreases |s|
  {
    if s != [] {
      NotFound(s[1..], c);
    }
  }

  lemma OnePart(text: string, min: nat, max: nat)
    requires ',' !in text
    ensures PartsOf(text, min, max) ==
            var p := ReadPart(text, min, max); if p.Ok? then Ok([p.value]) else Err(p.error)
  {
    NotFound(text, ',');
    assert Split(text, ',') == [text];
    assert [text][1..] == [];
    assert ReadParts([], min, max) == Ok([]);
    var p := ReadPart(text, min, max);
    if p.Ok? {
      assert [p.value] + [] == [p.value];
    }
  }

  /** A starred field is one range over everything, with a step. */
  lemma StarPart(field: string, min: nat, max: nat) returns (step: nat)
    requires max < 64 && IsStar(field) && PartsOf(field, min, max).Ok?
    ensures step > 0 && PartsOf(field, min, max) == Ok([Part(min, max, step)])
    ensures field == "*" ==> step == 1
  {
    hide PartsOf;
    StarText(field);
    OnePart(field, min, max);
    step := ReadPart(field, min, max).value.step;
  }

  lemma StarText(field: string)
    requires IsStar(field)
    ensures ',' !in field && RangeText(field) == "*"
    ensures field == "*" ==> SplitOnce(field, '/') == None
  {
    if field == "*" {
      NotFound(field, '/');
    } else {
      assert IndexOf(field[1..], '/') == 0;
      assert IndexOf(field, '/') == 1;
      assert field[..1] == "*";
    }
  }

  lemma EverySecond(min: nat, max: nat, step: nat, i: nat)
    requires 0 < step && min < max && min <= i <= max
    ensures On(Part(min, max, step), min + 1) <==> step == 1
    ensures step == 1 ==> On(Part(min, max, step), i)
  {
    if step > 1 {
      SmallMod(1, step);
    }
  }

  /** The second of a month is a day every schedule can meet. */
  lemma SecondReachable(fields: seq<string>, s: Schedule)
    requires Describes(fields, s) && AllTame(s)
    ensures Reachable(s, 2)
  {
    var m := FirstValue(fields[3], 1, 12);
  }

  /** A starred day of month covers exactly when its step is one. */
  lemma DomCovers(fields: seq<string>, s: Schedule)
    requires Describes(fields, s) && AllTame(s) && s.domStar
    ensures |s.dom| == 1
    ensures (forall d :: Reachable(s, d) ==> Allows(s.dom, d)) <==> s.dom[0].step == 1
  {
    hide IsStar, PartsOf, On, Tame;
    var step := StarPart(fields[2], 1, 31);
    SecondReachable(fields, s);
    EverySecond(1, 31, step, 2);
    if step == 1 {
      forall d | Reachable(s, d)
        ensures Allows(s.dom, d)
      {
        EverySecond(1, 31, step, d);
        assert s.dom[0] in s.dom;
      }
    } else {
      assert !Allows(s.dom, 2);
    }
  }

  /** A starred day of week covers exactly when its step is one. */
  lemma DowCovers(fields: seq<string>, s: Schedule)
    requires Describes(fields, s) && AllTame(s) && s.dowStar
    ensures |s.dow| == 1
    ensures (forall w: nat :: w < 7 ==> AllowsDay(s.dow, w)) <==> s.dow[0].step == 1
  {
    hide IsStar, PartsOf, On, Tame;
    var step := StarPart(fields[4], 0, 7);
    EverySecond(0, 7, step, 1);
    if step == 1 {
      forall w: nat | w < 7
        ensures AllowsDay(s.dow, w)
      {
        EverySecond(0, 7, step, w);
        assert s.dow[0] in s.dow;
      }
    } else {
      assert !AllowsDay(s.dow, 1);
    }
  }

  /** Some day of the schedule's months passes the day-of-month field. */
  ghost predicate MeetsSomeDay(s: Schedule)
    requires AllTame(s)
  {
    exists d :: Reachable(s, d) && (s.domStar || Allows(s.dom, d))
  }

  /** The stars cover if and only if their steps are one; a day of week that never gets a day does not matter. */
  lemma CoverExactly(fields: seq<string>, s: Schedule)
    requires Describes(fields, s) && AllTame(s)
    ensures s.domStar ==> |s.dom| == 1
    ensures s.dowStar ==> |s.dow| == 1
    ensures StarsCover(s) <==>
              (s.domStar ==> s.dom[0].step == 1) && (s.dowStar && MeetsSomeDay(s) ==> s.dow[0].step == 1)
  {
    hide Describes, AllTame, Reachable, Allows, AllowsDay;
    if s.domStar {
      DomCovers(fields, s);
    }
    if s.dowStar {
      DowCovers(fields, s);
    }
  }

  /** A day field that is a plain star, or does not start with a star. */
  predicate PlainDay(field: string) {
    IsStar(field) ==> field == "*"
  }

  /**
  Cron refines the set reading of the text its author wrote: with plain day fields,
  and day-of-week parts that survive the rewriting, the expression fires at exactly
  the times described.
  */
  lemma MatchesRefinesSets(fields: seq<string>, s: Schedule, secs: nat)
    requires Describes(fields, s) && AllTame(s) && AllSurvive(Split(fields[4], ','))
    requires PlainDay(fields[2]) && PlainDay(fields[4])
    ensures ParseResult(fields).Ok? && (Matches(ParseResult(fields).value, secs) <==> Due(s, secs))
  {
    hide AllTame, AllSurvive, PartsOf, Matches, Due, ParseResult, StarsCover, MeetsSomeDay, IsStar;
    if s.domStar {
      var step := StarPart(fields[2], 1, 31);
    }
    if s.dowStar {
      var step := StarPart(fields[4], 0, 7);
    }
    CoverExactly(fields, s);
    FiresExactly(fields, s);
  }

  // ---------------------------------------------------------------- where the text misleads

  lemma ReadsNumber(c: char)
    requires IsDigit(c)
    ensures ParseU32([c]) == Some(c as int - '0' as int)
  {
    assert [c][..0] == [];
    assert Decimal([c]) == 10 * Decimal([]) + (c as int - '0' as int);
  }

  lemma ZeroReads()
    ensures PartsOf("0", 0, 59) == Ok([Part(0, 0, 1)]) && PartsOf("0", 0, 23) == Ok([Part(0, 0, 1)])
  {
    ReadsNumber('0');
    NotFound("0", '/');
    NotFound("0", '-');
    assert "0" == ['0'];
    OnePart("0", 0, 59);
    OnePart("0", 0, 23);
  }

  lemma StarReads(min: nat, max: nat)
    requires min <= max < 64
    ensures PartsOf("*", min, max) == Ok([Part(min, max, 1)])
  {
    NotFound("*", '/');
    OnePart("*", min, max);
  }

  lemma EverySecondDayReads()
    ensures PartsOf("*/2", 1, 31) == Ok([Part(1, 31, 2)])
  {
    ReadsNumber('2');
    assert "*/2"[1..] == "/2" && IndexOf("/2", '/') == 0;
    assert IndexOf("*/2", '/') == 1;
    assert "*/2"[..1] == "*" && "*/2"[2..] == ['2'];
    assert SplitOnce("*/2", '/') == Some(("*", ['2']));
    OnePart("*/2", 1, 31);
  }

  function EverySecondDay(): Schedule {
    Schedule([Part(0, 0, 1)], [Part(0, 0, 1)], [Part(1, 31, 2)], [Part(1, 12, 1)], [Part(0, 7, 1)], true, true)
  }

  lemma EverySecondDayDescribed()
    ensures Describes(["0", "0", "*/2", "*", "*"], EverySecondDay()) && AllTame(EverySecondDay())
  {
    hide PartsOf;
    ZeroReads();
    EverySecondDayReads();
    StarReads(1, 12);
    StarReads(0, 7);
    assert "*/" <= "*/2" && ',' !in "*/2";
  }

  lemma StarSurvives()
    ensures AllSurvive(Split("*", ','))
  {
    NotFound("*", ',');
    NotFound("*", '/');
    assert Split("*", ',') == ["*"];
  }

  /** Midnight of every second day, as written, also fires on days it leaves out. */
  lemma SteppedStarRefutes() returns (fields: seq<string>, s: Schedule, secs: nat)
    ensures fields == ["0", "0", "*/2", "*", "*"] && Describes(fields, s) && AllTame(s)
    ensures ParseResult(fields).Ok? && Matches(ParseResult(fields).value, secs) && !Due(s, secs)
  {
    hide Describes, AllTame, StarsCover, Due, Fires, Matches, ParseResult, AllSurvive, MeetsSomeDay;
    fields := ["0", "0", "*/2", "*", "*"];
    s := EverySecondDay();
    EverySecondDayDescribed();
    CoverExactly(fields, s);
    secs := UncoveredFires(fields, s);
    StarSurvives();
    MatchesFires(fields, s, secs);
  }

  lemma ReadsRange(a: char, b: char, max: nat)
    requires IsDigit(a) && IsDigit(b) && a <= b && b as int - '0' as int <= max
    ensures ReadPart([a, '-', b], 0, max) == Ok(Part(a as int - '0' as int, b as int - '0' as int, 1))
    ensures RangeText([a, '-', b]) == [a, '-', b]
  {
    var text := [a, '-', b];
    ReadsNumber(a);
    ReadsNumber(b);
    NotFound(text, '/');
    assert text[1..] == ['-', b] && IndexOf(['-', b], '-') == 0;
    assert IndexOf(text, '-') == 1;
    assert text[..1] == [a] && text[2..] == [b];
    assert SplitOnce(text, '-') == Some(([a], [b]));
  }

  /** Sunday to Sunday is parsed as Sunday alone, and Monday to Sunday not at all. */
  lemma WeekToSevenRefutes()
    ensures AsWritten("0-7") == Ok(Part(0, 7, 1)) && AsParsed("0-7") == Ok(Part(0, 0, 1))
    ensures AsWritten("1-7") == Ok(Part(1, 7, 1)) && AsParsed("1-7") == Err(OutOfRange)
  {
    assert "0-7" == ['0', '-', '7'] && "1-7" == ['1', '-', '7'];
    ReadsRange('0', '7', 7);
    ReadsRange('1', '7', 7);
    NotFound("0-7", '/');
    NotFound("1-7", '/');
    RewrittenPart("0-7");
    RewrittenPart("1-7");
  }

  /** Seventy is no weekday, and is parsed as Sunday. */
  lemma SeventyRefutes()
    ensures AsWritten("70") == Err(OutOfRange) && AsParsed("70") == Ok(Part(0, 0, 1))
  {
    var text := ['7', '0'];
    assert "70" == text;
    assert text[..1] == ['7'] && text[1..] == ['0'] && ['0'][1..] == [];
    assert SevensToZeros(['0']) == ['0'];
    var zeros := SevensToZeros(text);
    assert zeros == ['0', '0'] && zeros[..1] == ['0'];
    ReadsNumber('7');
    ReadsNumber('0');
    assert Decimal(text) == 10 * Decimal(['7']) + 0;
    assert Decimal(zeros) == 10 * Decimal(['0']) + 0;
    NotFound(text, '/');
    NotFound(text, '-');
    NotFound(zeros, '/');
    NotFound(zeros, '-');
  }
}
