/**
Five-field cron expressions: from text to bit masks to firing times.

A field reads as a union of stepped ranges.  The masks the parser builds are that
reading exactly when no step wraps around 32 bits.
*/
module Cron {
  import opened Options
  import opened Bits
  import opened Calendar

  const U32: nat := 0x1_0000_0000

  datatype CronError = BadStep | ZeroStep | BadRange | BadValue | OutOfRange | EmptyField | WrongCount
  datatype Result<T> = Ok(value: T) | Err(error: CronError)

  /** A stepped range. */
  datatype Part = Part(lo: nat, hi: nat, step: nat)

  // ---------------------------------------------------------------- text

  function IndexOf(s: string, c: char): (i: nat)
    ensures i <= |s|
  {
    if s == [] || s[0] == c then 0 else 1 + IndexOf(s[1..], c)
  }

  function SplitOnce(s: string, c: char): Option<(string, string)> {
    var i := IndexOf(s, c);
    if i < |s| then Some((s[..i], s[i + 1..])) else None
  }

  function Split(s: string, c: char): (parts: seq<string>)
    ensures parts != []
    decreases |s|
  {
    var i := IndexOf(s, c);
    if i < |s| then [s[..i]] + Split(s[i + 1..], c) else [s]
  }

  predicate IsDigit(c: char) {
    '0' <= c <= '9'
  }

  function Decimal(s: string): nat
    requires forall c :: c in s ==> IsDigit(c)
  {
    if s == [] then 0
    else
      assert IsDigit(s[|s| - 1]);
      10 * Decimal(s[..|s| - 1]) + (s[|s| - 1] as int - '0' as int)
  }

  /** An unsigned 32-bit number: digits after an optional plus sign. */
  function ParseU32(s: string): Option<nat> {
    var digits := if s != [] && s[0] == '+' then s[1..] else s;
    if digits == [] || !(forall c :: c in digits ==> IsDigit(c)) then None
    else if Decimal(digits) >= U32 then None
    else Some(Decimal(digits))
  }

  function ReadStep(part: string): Result<(string, nat)> {
    var cut := SplitOnce(part, '/');
    if cut.None? then Ok((part, 1))
    else
      var step := ParseU32(cut.value.1);
      if step.None? then Err(BadStep) else if step.value == 0 then Err(ZeroStep) else Ok((cut.value.0, step.value))
  }

  function ReadRange(range: string, min: nat, max: nat): Result<(nat, nat)> {
    if range == "*" then Ok((min, max))
    else
      var cut := SplitOnce(range, '-');
      if cut.Some? then
        var a, b := ParseU32(cut.value.0), ParseU32(cut.value.1);
        if a.None? || b.None? then Err(BadRange) else Ok((a.value, b.value))
      else
        var v := ParseU32(range);
        if v.None? then Err(BadValue) else Ok((v.value, v.value))
  }

  function ReadPart(part: string, min: nat, max: nat): Result<Part> {
    var s := ReadStep(part);
    if s.Err? then Err(s.error)
    else
      var r := ReadRange(s.value.0, min, max);
      if r.Err? then Err(r.error)
      else if r.value.0 < min || r.value.1 > max || r.value.0 > r.value.1 then Err(OutOfRange)
      else Ok(Part(r.value.0, r.value.1, s.value.1))
  }

  function ReadParts(texts: seq<string>, min: nat, max: nat): Result<seq<Part>> {
    if texts == [] then Ok([])
    else
      var p := ReadPart(texts[0], min, max);
      if p.Err? then Err(p.error)
      else
        var rest := ReadParts(texts[1..], min, max);
        if rest.Err? then Err(rest.error) else Ok([p.value] + rest.value)
  }

  /** The field counts as unrestricted: a star, or a lone stepped star. */
  predicate IsStar(field: string) {
    field == "*" || ("*/" <= field && ',' !in field)
  }

  // ---------------------------------------------------------------- masks

  /** Set every `step`-th bit from `v` up to `hi`; the counter is 32 bits wide and wraps. */
  function StepBits(mask: nat, v: nat, hi: nat, step: nat): nat
    requires 0 < step < U32 && hi < 64 && v < U32
    decreases Rounds(v, hi, step)
  {
    RoundsFall(v, hi, step);
    if v > hi then mask else StepBits(Or(mask, Pow2(v)), (v + step) % U32, hi, step)
  }

  /** Bounds the rounds left: counting up to `hi`, or down by wrapping. */
  function Rounds(v: nat, hi: nat, step: nat): nat {
    if v > hi then 0 else if hi + step < U32 then hi + 1 - v else v + 1
  }

  lemma RoundsFall(v: nat, hi: nat, step: nat)
    requires 0 < step < U32 && hi < 64
    ensures v <= hi ==> Rounds((v + step) % U32, hi, step) < Rounds(v, hi, step)
  {
  }

  predicate Proper(p: Part) {
    0 < p.step < U32 && p.lo <= p.hi < 64
  }

  function MaskOf(mask: nat, parts: seq<Part>): nat
    requires forall p :: p in parts ==> Proper(p)
    decreases |parts|
  {
    if parts == [] then mask
    else
      assert Proper(parts[0]);
      MaskOf(StepBits(mask, parts[0].lo, parts[0].hi, parts[0].step), parts[1..])
  }

  lemma {:induction false} PartsProper(texts: seq<string>, min: nat, max: nat)
    requires max < 64
    ensures var r := ReadParts(texts, min, max);
            r.Ok? ==> |r.value| == |texts| && forall p :: p in r.value ==> Proper(p) && min <= p.lo && p.hi <= max
    decreases |texts|
  {
    if texts != [] {
      PartsProper(texts[1..], min, max);
    }
  }

  /** What parsing a field yields. */
  function FieldMask(field: string, min: nat, max: nat): Result<(nat, bool)>
    requires max < 64
  {
    var r := ReadParts(Split(field, ','), min, max);
    if r.Err? then Err(r.error)
    else
      PartsProper(Split(field, ','), min, max);
      var mask := MaskOf(0, r.value);
      if mask == 0 then Err(EmptyField) else Ok((mask, IsStar(field)))
  }

  method ParseField(field: string, min: nat, max: nat) returns (r: Result<(nat, bool)>)
    requires min <= max < 64
    ensures r == FieldMask(field, min, max)
  {
    hide ReadPart, StepBits;
    var mask := 0;
    var texts := Split(field, ',');
    ghost var all := ReadParts(texts, min, max);
    PartsProper(texts, min, max);
    for i := 0 to |texts|
      invariant var rest := ReadParts(texts[i..], min, max);
                && rest.Err? == all.Err? && (all.Err? ==> rest.error == all.error)
                && (all.Ok? ==> (forall p :: p in rest.value ==> Proper(p)) && MaskOf(mask, rest.value) == MaskOf(0, all.value))
    {
      assert texts[i..][0] == texts[i] && texts[i..][1..] == texts[i + 1..];
      var part := ReadPart(texts[i], min, max);
      if part.Err? {
        return Err(part.error);
      }
      PartsProper(texts[i..], min, max);
      ReadPartProper(texts[i], min, max);
      mask := SetRange(mask, part.value);
      if all.Ok? {
        assert ReadParts(texts[i..], min, max).value == [part.value] + ReadParts(texts[i + 1..], min, max).value;
      }
    }
    assert texts[|texts|..] == [];
    if mask == 0 {
      return Err(EmptyField);
    }
    return Ok((mask, IsStar(field)));
  }

  lemma ReadPartProper(text: string, min: nat, max: nat)
    requires max < 64 && ReadPart(text, min, max).Ok?
    ensures Proper(ReadPart(text, min, max).value)
  {
  }

  method SetRange(mask: nat, p: Part) returns (after: nat)
    requires Proper(p)
    ensures after == StepBits(mask, p.lo, p.hi, p.step)
  {
    hide Or, Pow2, Rounds;
    after := mask;
    var v: nat := p.lo;
    while v <= p.hi
      invariant v < U32 && StepBits(after, v, p.hi, p.step) == StepBits(mask, p.lo, p.hi, p.step)
      decreases Rounds(v, p.hi, p.step)
    {
      RoundsFall(v, p.hi, p.step);
      after := Or(after, Pow2(v));
      v := (v + p.step) % U32;
    }
  }

  // ---------------------------------------------------------------- the reading of a field

  /** `i` lies on the stepped range. */
  predicate On(p: Part, i: nat)
    requires p.step > 0
  {
    p.lo <= i <= p.hi && (i - p.lo) % p.step == 0
  }

  lemma ModStep(x: nat, step: nat)
    requires 0 < step <= x
    ensures (x - step) % step == x % step
  {
    var q, r := (x - step) / step, (x - step) % step;
    assert x - step == q * step + r;
    assert x == (q + 1) * step + r by {
      assert (q + 1) * step == q * step + step;
    }
    RemainderIs(x, step, q + 1, r);
  }

  predicate OnFrom(v: nat, hi: nat, step: nat, i: nat)
    requires step > 0
  {
    v <= i <= hi && (i - v) % step == 0
  }

  /** The range from `v` on is `v` and the range from the next step on. */
  lemma OnFromSteps(v: nat, hi: nat, step: nat, i: nat)
    requires step > 0 && v <= hi
    ensures OnFrom(v, hi, step, i) <==> i == v || OnFrom(v + step, hi, step, i)
  {
    if i >= v + step {
      ModStep(i - v, step);
    } else if i > v {
      SmallMod(i - v, step);
    }
  }

  /** Counting without wrapping sets exactly the range. */
  lemma {:induction false} StepsExact(mask: nat, v: nat, hi: nat, step: nat, i: nat)
    requires 0 < step && hi < 64 && v + step < U32
    ensures Bit(StepBits(mask, v, hi, step), i) <==> Bit(mask, i) || OnFrom(v, hi, step, i)
    decreases Rounds(v, hi, step)
  {
    hide Bit, Or, Pow2;
    if v <= hi {
      OnFromSteps(v, hi, step, i);
      hide OnFrom;
      OrBits(mask, Pow2(v), i);
      Pow2Bits(v, i);
      NoWrap(v, step);
      if v + step <= hi {
        StepsExact(Or(mask, Pow2(v)), v + step, hi, step, i);
      } else {
        NothingBeyond(v + step, hi, step, i);
      }
    }
  }

  lemma NoWrap(v: nat, step: nat)
    requires v + step < U32
    ensures (v + step) % U32 == v + step
  {
  }

  lemma NothingBeyond(v: nat, hi: nat, step: nat, i: nat)
    requires step > 0 && v > hi
    ensures !OnFrom(v, hi, step, i)
  {
  }

  lemma SmallMod(x: nat, step: nat)
    requires 0 < x < step
    ensures x % step == x
  {
  }

  lemma {:induction false} BitsStay(mask: nat, v: nat, hi: nat, step: nat, i: nat)
    requires 0 < step < U32 && hi < 64 && v < U32 && Bit(mask, i)
    ensures Bit(StepBits(mask, v, hi, step), i)
    decreases Rounds(v, hi, step)
  {
    hide Bit, Or, Pow2;
    if v <= hi {
      OrBits(mask, Pow2(v), i);
      BitsStay(Or(mask, Pow2(v)), (v + step) % U32, hi, step, i);
    }
  }

  /** Only bits up to the end of the range are set, wrapped or not. */
  lemma {:induction false} BitsBounded(mask: nat, v: nat, hi: nat, step: nat, i: nat)
    requires 0 < step < U32 && hi < 64 && v < U32 && i > hi
    ensures Bit(StepBits(mask, v, hi, step), i) <==> Bit(mask, i)
    decreases Rounds(v, hi, step)
  {
    hide Bit, Or, Pow2;
    if v <= hi {
      OrBits(mask, Pow2(v), i);
      Pow2Bits(v, i);
      BitsBounded(Or(mask, Pow2(v)), (v + step) % U32, hi, step, i);
    }
  }

  /** A stepped range is read right if and only if its first step does not wrap. */
  lemma RangeExactly(p: Part)
    requires Proper(p)
    ensures (forall i: nat {:trigger Bit(StepBits(0, p.lo, p.hi, p.step), i)} :: Bit(StepBits(0, p.lo, p.hi, p.step), i) <==> On(p, i))
        <==> p.lo + p.step < U32
  {
    hide Bit, Or, Pow2;
    if p.lo + p.step < U32 {
      forall i: nat
        ensures Bit(StepBits(0, p.lo, p.hi, p.step), i) <==> On(p, i)
      {
        StepsExact(0, p.lo, p.hi, p.step, i);
        ZeroBits(i);
      }
    } else {
      var w := (p.lo + p.step) % U32;
      assert w == p.lo + p.step - U32 && w < p.lo;
      var m1 := Or(0, Pow2(p.lo));
      assert StepBits(0, p.lo, p.hi, p.step) == StepBits(Or(m1, Pow2(w)), (w + p.step) % U32, p.hi, p.step);
      OrBits(m1, Pow2(w), w);
      Pow2Bits(w, w);
      BitsStay(Or(m1, Pow2(w)), (w + p.step) % U32, p.hi, p.step, w);
      assert !On(p, w);
    }
  }

  predicate Tame(parts: seq<Part>) {
    forall p :: p in parts ==> Proper(p) && p.lo + p.step < U32
  }

  /** `i` is allowed by the field. */
  predicate Allows(parts: seq<Part>, i: nat)
    requires forall p :: p in parts ==> p.step > 0
  {
    exists p :: p in parts && On(p, i)
  }

  lemma {:induction false} MaskReads(mask: nat, parts: seq<Part>, i: nat)
    requires Tame(parts)
    ensures Bit(MaskOf(mask, parts), i) <==> Bit(mask, i) || Allows(parts, i)
    decreases |parts|
  {
    hide Bit, StepBits, Proper;
    if parts != [] {
      var p := parts[0];
      assert p in parts;
      ProperMeans(p);
      StepsExact(mask, p.lo, p.hi, p.step, i);
      MaskReads(StepBits(mask, p.lo, p.hi, p.step), parts[1..], i);
      assert parts == [p] + parts[1..];
      assert On(p, i) <==> p.lo <= i <= p.hi && (i - p.lo) % p.step == 0;
    }
  }

  lemma ProperMeans(p: Part)
    requires Proper(p)
    ensures 0 < p.step < U32 && p.lo <= p.hi < 64
  {
  }

  lemma {:induction false} MaskBounded(mask: nat, parts: seq<Part>, max: nat, i: nat)
    requires (forall p :: p in parts ==> Proper(p) && p.hi <= max) && i > max
    ensures Bit(MaskOf(mask, parts), i) <==> Bit(mask, i)
    decreases |parts|
  {
    if parts != [] {
      var p := parts[0];
      BitsBounded(mask, p.lo, p.hi, p.step, i);
      MaskBounded(StepBits(mask, p.lo, p.hi, p.step), parts[1..], max, i);
    }
  }

  // ---------------------------------------------------------------- expressions

  datatype CronExpr = CronExpr(minute: nat, hour: nat, dom: nat, month: nat, dow: nat, domStar: bool, dowStar: bool)

  function SevensToZeros(s: string): string {
    if s == [] then [] else [if s[0] == '7' then '0' else s[0]] + SevensToZeros(s[1..])
  }

  /** The masks of the five fields, narrowed to their words. */
  method Parse(fields: seq<string>) returns (r: Result<CronExpr>)
    ensures r == ParseResult(fields)
  {
    if |fields| != 5 {
      return Err(WrongCount);
    }
    var minute := ParseField(fields[0], 0, 59);
    if minute.Err? {
      return Err(minute.error);
    }
    var hour := ParseField(fields[1], 0, 23);
    if hour.Err? {
      return Err(hour.error);
    }
    var dom := ParseField(fields[2], 1, 31);
    if dom.Err? {
      return Err(dom.error);
    }
    var month := ParseField(fields[3], 1, 12);
    if month.Err? {
      return Err(month.error);
    }
    var dow := ParseField(SevensToZeros(fields[4]), 0, 6);
    if dow.Err? {
      return Err(dow.error);
    }
    return Ok(CronExpr(minute.value.0, Narrow(hour.value.0, 32), Narrow(dom.value.0, 32), Narrow(month.value.0, 16),
                       Narrow(dow.value.0, 8), dom.value.1, dow.value.1));
  }

  function ParseResult(fields: seq<string>): Result<CronExpr> {
    if |fields| != 5 then Err(WrongCount)
    else
      var minute, hour, dom := FieldMask(fields[0], 0, 59), FieldMask(fields[1], 0, 23), FieldMask(fields[2], 1, 31);
      var month, dow := FieldMask(fields[3], 1, 12), FieldMask(SevensToZeros(fields[4]), 0, 6);
      if minute.Err? then Err(minute.error)
      else if hour.Err? then Err(hour.error)
      else if dom.Err? then Err(dom.error)
      else if month.Err? then Err(month.error)
      else if dow.Err? then Err(dow.error)
      else Ok(CronExpr(minute.value.0, Narrow(hour.value.0, 32), Narrow(dom.value.0, 32), Narrow(month.value.0, 16),
                       Narrow(dow.value.0, 8), dom.value.1, dow.value.1))
  }

  function MinuteOf(secs: nat): nat {
    secs / 60 % 60
  }

  function HourOf(secs: nat): nat {
    secs / 60 / 60 % 24
  }

  function DateAt(secs: nat): (t: Date)
    ensures 1 <= t.month <= 12 && 1 <= t.day <= 31 && 0 <= t.weekday < 7
  {
    CivilValid(secs / 60 / 60 / 24);
    Civil(secs / 60 / 60 / 24)
  }

  /** Does the expression fire in the minute of `secs`? */
  predicate Matches(e: CronExpr, secs: nat) {
    var t := DateAt(secs);
    && And(e.minute, Pow2(MinuteOf(secs))) != 0
    && And(e.hour, Pow2(HourOf(secs))) != 0
    && And(e.month, Pow2(t.month)) != 0
    && var domHit, dowHit := And(e.dom, Pow2(t.day)) != 0, And(e.dow, Pow2(t.weekday)) != 0;
    if e.domStar && e.dowStar then true
    else if e.dowStar then domHit
    else if e.domStar then dowHit
    else domHit || dowHit
  }

  // ---------------------------------------------------------------- what the masks say

  function PartsOf(field: string, min: nat, max: nat): Result<seq<Part>> {
    ReadParts(Split(field, ','), min, max)
  }

  /** Testing a bit of a parsed, narrowed mask is asking the field. */
  lemma FieldReads(field: string, min: nat, max: nat, width: nat, i: nat)
    requires max < width && max < 64 && PartsOf(field, min, max).Ok? && Tame(PartsOf(field, min, max).value)
    ensures FieldMask(field, min, max).Ok?
    ensures And(Narrow(FieldMask(field, min, max).value.0, width), Pow2(i)) != 0 <==> Allows(PartsOf(field, min, max).value, i)
  {
    hide And, Narrow, Bit, StepBits, Pow2, ReadParts;
    var parts := PartsOf(field, min, max).value;
    PartsProper(Split(field, ','), min, max);
    var mask := MaskOf(0, parts);
    NotEmpty(parts);
    AndTestsBit(Narrow(mask, width), i);
    NarrowBits(mask, width, i);
    MaskReads(0, parts, i);
    ZeroBits(i);
    if i > max {
      MaskBounded(0, parts, max, i);
    }
  }

  lemma {:induction false} MaskStays(mask: nat, parts: seq<Part>, i: nat)
    requires (forall p :: p in parts ==> Proper(p)) && Bit(mask, i)
    ensures Bit(MaskOf(mask, parts), i)
    decreases |parts|
  {
    hide Bit, StepBits, Proper;
    if parts != [] {
      var p := parts[0];
      ProperMeans(p);
      BitsStay(mask, p.lo, p.hi, p.step, i);
      MaskStays(StepBits(mask, p.lo, p.hi, p.step), parts[1..], i);
    }
  }

  /** The empty-field error cannot occur, wrapped or not: the first round sets the first bit. */
  lemma NotEmpty(parts: seq<Part>)
    requires parts != [] && forall p :: p in parts ==> Proper(p)
    ensures MaskOf(0, parts) != 0
  {
    hide Bit, Or, Pow2, StepBits;
    var p := parts[0];
    FirstBit(p);
    MaskStays(StepBits(0, p.lo, p.hi, p.step), parts[1..], p.lo);
    SomeBit(MaskOf(0, parts), p.lo);
  }

  lemma FirstBit(p: Part)
    requires Proper(p)
    ensures Bit(StepBits(0, p.lo, p.hi, p.step), p.lo)
  {
    hide Bit, Or, Pow2;
    OrBits(0, Pow2(p.lo), p.lo);
    Pow2Bits(p.lo, p.lo);
    BitsStay(Or(0, Pow2(p.lo)), (p.lo + p.step) % U32, p.hi, p.step, p.lo);
  }

  /** A field is accepted if and only if each of its parts is. */
  lemma AcceptedExactly(field: string, min: nat, max: nat)
    requires max < 64
    ensures FieldMask(field, min, max).Ok? <==> PartsOf(field, min, max).Ok?
  {
    hide ReadParts;
    PartsProper(Split(field, ','), min, max);
    if PartsOf(field, min, max).Ok? {
      NotEmpty(PartsOf(field, min, max).value);
    }
  }

  /** Narrowing an accepted mask to a word that holds the field's largest value loses no bit, wrapped or not. */
  lemma NarrowingLosesNothing(field: string, min: nat, max: nat, width: nat, i: nat)
    requires max < width && max < 64 && FieldMask(field, min, max).Ok?
    ensures Bit(Narrow(FieldMask(field, min, max).value.0, width), i) <==> Bit(FieldMask(field, min, max).value.0, i)
  {
    hide Bit, Narrow, StepBits;
    var parts := ReadParts(Split(field, ','), min, max).value;
    PartsProper(Split(field, ','), min, max);
    NarrowBits(MaskOf(0, parts), width, i);
    if i > max {
      MaskBounded(0, parts, max, i);
      ZeroBits(i);
    }
  }

  lemma MinuteReads(field: string, i: nat)
    requires PartsOf(field, 0, 59).Ok? && Tame(PartsOf(field, 0, 59).value)
    ensures FieldMask(field, 0, 59).Ok?
    ensures And(FieldMask(field, 0, 59).value.0, Pow2(i)) != 0 <==> Allows(PartsOf(field, 0, 59).value, i)
  {
    hide And, Narrow, Bit, StepBits, Pow2, ReadParts;
    var parts := PartsOf(field, 0, 59).value;
    PartsProper(Split(field, ','), 0, 59);
    NotEmpty(parts);
    AndTestsBit(MaskOf(0, parts), i);
    MaskReads(0, parts, i);
    ZeroBits(i);
  }
}
