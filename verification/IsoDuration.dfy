/** The ISO-8601 duration scanner of internal/tool/builtin/datetime.go, in 64-bit arithmetic. */
module IsoDuration {
  import opened Bytes
  import opened Digits

  const SECOND := 1_000_000_000
  const MINUTE := 60 * SECOND
  const HOUR := 60 * MINUTE

  /** Go's signed 64-bit wrap-around. */
  function Wrap(x: int): int {
    (x + 0x8000_0000_0000_0000) % 0x1_0000_0000_0000_0000 - 0x8000_0000_0000_0000
  }

  lemma WrapShift(x: int, j: int)
    ensures Wrap(x + 0x1_0000_0000_0000_0000 * j) == Wrap(x)
  {
  }

  lemma WrapAdd(a: int, b: int)
    ensures Wrap(Wrap(a) + b) == Wrap(a + b)
  {
    var q := (a + 0x8000_0000_0000_0000) / 0x1_0000_0000_0000_0000;
    assert Wrap(a) + b == (a + b) + 0x1_0000_0000_0000_0000 * (-q);
    WrapShift(a + b, -q);
  }

  lemma WrapMul(a: int, k: int)
    ensures Wrap(Wrap(a) * k) == Wrap(a * k)
  {
    var m := 0x1_0000_0000_0000_0000;
    var q := (a + 0x8000_0000_0000_0000) / m;
    assert Wrap(a) == a + m * (-q);
    assert (a + m * (-q)) * k == a * k + m * (-q * k);
    WrapShift(a * k, -q * k);
  }

  /** Days only before the first T; hours, minutes and seconds only after. */
  predicate IsUnit(inTime: bool, unit: char) {
    if inTime then unit == 'H' || unit == 'M' || unit == 'S' else unit == 'D'
  }

  /** So many units, in nanoseconds. */
  function Length(n: int, inTime: bool, unit: char): int
    requires IsUnit(inTime, unit)
  {
    if !inTime then n * (24 * HOUR)
    else if unit == 'H' then n * HOUR
    else if unit == 'M' then n * MINUTE
    else n * SECOND
  }

  /** A day has 86400 seconds, an hour 3600, a minute 60; days go in front of the T, the others
      behind it, and there are no other units. */
  lemma UnitLengths(n: int)
    ensures forall u :: IsUnit(false, u) <==> u == 'D'
    ensures forall u :: IsUnit(true, u) <==> u == 'H' || u == 'M' || u == 'S'
    ensures Length(n, false, 'D') == 86_400_000_000_000 * n
    ensures Length(n, true, 'H') == 3_600_000_000_000 * n
    ensures Length(n, true, 'M') == 60_000_000_000 * n
    ensures Length(n, true, 'S') == 1_000_000_000 * n
  {
  }

  lemma WrapLength(n: int, inTime: bool, unit: char)
    requires IsUnit(inTime, unit)
    ensures Wrap(Length(Wrap(n), inTime, unit)) == Wrap(Length(n, inTime, unit))
  {
    if !inTime {
      WrapMul(n, 24 * HOUR);
    } else if unit == 'H' {
      WrapMul(n, HOUR);
    } else if unit == 'M' {
      WrapMul(n, MINUTE);
    } else {
      WrapMul(n, SECOND);
    }
  }

  /** How many digits `s` starts with. */
  function DigitRun(s: Bytes): (n: nat)
    ensures n <= |s|
  {
    if s == "" || !IsDigit(s[0]) then 0 else 1 + DigitRun(s[1..])
  }

  lemma {:induction false} DigitRunIsAll(s: Bytes)
    ensures var n := DigitRun(s); AllDigits(s[..n]) && (n < |s| ==> !IsDigit(s[n]))
  {
    if s != "" && IsDigit(s[0]) { DigitRunIsAll(s[1..]); }
  }

  /** The number `s` starts with. */
  function Leading(s: Bytes): nat {
    DigitRunIsAll(s);
    Value(s[..DigitRun(s)])
  }

  /** What is left after the P: the exact value, or None where the scanner reports an error. */
  function Scan(s: Bytes, inTime: bool): Option<int>
    decreases |s|
  {
    if s == "" then Some(0)
    else if s[0] == 'T' then Scan(s[1..], true)
    else
      var n := DigitRun(s);
      if n == 0 || n == |s| then None
      else
        if !IsUnit(inTime, s[n]) then None
        else
          var rest := Scan(s[n + 1..], inTime);
          if rest.None? then None else Some(Length(Leading(s), inTime, s[n]) + rest.value)
  }

  function Parse(s: Bytes): Option<int> {
    if |s| < 2 || s[0] != 'P' then None else Scan(s[1..], false)
  }

  /** The accumulation loop over one digit run. */
  method ReadNumber(digits: Bytes) returns (n: int)
    requires AllDigits(digits)
    ensures n == Wrap(Value(digits))
  {
    n := 0;
    for k := 0 to |digits|
      invariant n == Wrap(Value(digits[..k]))
    {
      var v := Value(digits[..k]);
      assert digits[..k + 1][..k] == digits[..k];
      WrapMul(v, 10);
      WrapAdd(v * 10, DigitValue(digits[k]));
      WrapAdd(n * 10, DigitValue(digits[k]));
      n := Wrap(Wrap(n * 10) + DigitValue(digits[k]));
    }
    assert digits[..|digits|] == digits;
  }

  /** The digit-skipping loop. */
  method SkipDigits(s: Bytes, start: nat) returns (i: nat)
    requires start <= |s|
    ensures i == start + DigitRun(s[start..])
  {
    i := start;
    while i < |s| && IsDigit(s[i])
      invariant start <= i <= |s|
      invariant start + DigitRun(s[start..]) == i + DigitRun(s[i..])
    {
      assert s[i..][1..] == s[i + 1..];
      i := i + 1;
    }
  }

  /** The unit switch. */
  method ItemLength(n: int, inTime: bool, unit: char) returns (d: Option<int>)
    ensures d == if IsUnit(inTime, unit) then Some(Wrap(Length(n, inTime, unit))) else None
  {
    if !inTime && unit == 'D' {
      WrapMul(n * 24, HOUR);
      assert n * 24 * HOUR == n * (24 * HOUR);
      d := Some(Wrap(Wrap(n * 24) * HOUR));
    } else if inTime && unit == 'H' {
      d := Some(Wrap(n * HOUR));
    } else if inTime && unit == 'M' {
      d := Some(Wrap(n * MINUTE));
    } else if inTime && unit == 'S' {
      d := Some(Wrap(n * SECOND));
    } else {
      d := None;
    }
  }

  function Plus(v: int, rest: Option<int>): Option<int> {
    if rest.None? then None else Some(v + rest.value)
  }

  /** A text that starts with a number and a unit. */
  lemma ScanAt(s: Bytes, ds: Bytes, u: char, rest: Bytes, inTime: bool)
    requires 0 < |ds| < |s| && DigitRun(s) == |ds| && AllDigits(ds) && IsUnit(inTime, u)
    requires ds == s[..|ds|] && u == s[|ds|] && rest == s[|ds| + 1..]
    ensures Scan(s, inTime) == Plus(Length(Value(ds), inTime, u), Scan(rest, inTime))
  {
    assert ds[0] == s[0];
  }

  /** An item of exact length `v` in front of position `i`. */
  ghost predicate ItemAt(s: Bytes, start: nat, i: nat, inTime: bool, v: int)
    requires start <= i <= |s|
  {
    Scan(s[start..], inTime) == Plus(v, Scan(s[i..], inTime))
  }

  lemma ScanHere(s: Bytes, start: nat, i: nat, inTime: bool)
    requires start < i < |s| && DigitRun(s[start..]) == i - start && IsUnit(inTime, s[i])
    ensures AllDigits(s[start..i])
    ensures ItemAt(s, start, i + 1, inTime, Length(Value(s[start..i]), inTime, s[i]))
  {
    var here := s[start..];
    DigitRunIsAll(here);
    assert here[..i - start] == s[start..i] && here[i - start + 1..] == s[i + 1..];
    ScanAt(here, s[start..i], s[i], s[i + 1..], inTime);
  }

  /** One number and its unit from position `start` on: the wrapped length, the position behind it
      and the exact length, or None where the scanner gives up. */
  method ReadItem(s: Bytes, start: nat, inTime: bool) returns (d: Option<int>, i: nat, ghost v: int)
    requires start < |s| && s[start] != 'T'
    ensures d.None? ==> Scan(s[start..], inTime).None?
    ensures d.Some? ==> start < i <= |s| && d.value == Wrap(v) && ItemAt(s, start, i, inTime, v)
  {
    v := 0;
    i := SkipDigits(s, start);
    if start == i || i == |s| { return None, i, 0; }
    ghost var rest := s[start..];
    DigitRunIsAll(rest);
    assert s[start..i] == rest[..i - start] && s[i] == rest[i - start];
    var n := ReadNumber(s[start..i]);
    d := ItemLength(n, inTime, s[i]);
    if d.Some? {
      v := Length(Value(s[start..i]), inTime, s[i]);
      WrapLength(Value(s[start..i]), inTime, s[i]);
      ScanHere(s, start, i, inTime);
    }
    i := i + 1;
  }

  method AddLength(total: int, d: int, ghost exact: int, ghost v: int) returns (sum: int)
    requires total == Wrap(exact) && d == Wrap(v)
    ensures sum == Wrap(exact + v)
  {
    WrapAdd(exact, d);
    WrapAdd(v, exact);
    sum := Wrap(total + d);
  }

  /** The scanner stands at `i` and has added up `exact` of the whole. */
  ghost predicate Ahead(whole: Option<int>, s: Bytes, i: nat, inTime: bool, exact: int)
    requires i <= |s|
  {
    whole == Plus(exact, Scan(s[i..], inTime))
  }

  lemma AtStart(s: Bytes)
    requires |s| > 0
    ensures Ahead(Scan(s[1..], false), s, 1, false, 0)
  {
  }

  /** A T switches to time items. */
  lemma OverMark(whole: Option<int>, s: Bytes, i: nat, inTime: bool, exact: int)
    requires i < |s| && s[i] == 'T' && Ahead(whole, s, i, inTime, exact)
    ensures Ahead(whole, s, i + 1, true, exact)
  {
    assert s[i + 1..] == s[i..][1..];
  }

  lemma OverItem(whole: Option<int>, s: Bytes, i: nat, next: nat, inTime: bool, exact: int, v: int)
    requires i <= next <= |s| && Ahead(whole, s, i, inTime, exact) && ItemAt(s, i, next, inTime, v)
    ensures Ahead(whole, s, next, inTime, exact + v)
  {
    hide Scan;
  }

  lemma NoItem(whole: Option<int>, s: Bytes, i: nat, inTime: bool, exact: int)
    requires i <= |s| && Ahead(whole, s, i, inTime, exact) && Scan(s[i..], inTime).None?
    ensures whole.None?
  {
    hide Scan;
  }

  lemma AtEnd(whole: Option<int>, s: Bytes, inTime: bool, exact: int)
    requires Ahead(whole, s, |s|, inTime, exact)
    ensures whole == Some(exact)
  {
    assert s[|s|..] == "";
  }

  /** `parseISODuration`.  The result is the exact value wrapped to 64 bits, whatever overflowed
      on the way; None stands for the error returns. */
  method ParseISODuration(s: Bytes) returns (r: Option<int>)
    ensures r == if Parse(s).None? then None else Some(Wrap(Parse(s).value))
  {
    if |s| < 2 || s[0] != 'P' { return None; }
    var total := 0;
    ghost var exact := 0;
    var i := 1;
    var inTime := false;
    ghost var whole := Scan(s[1..], false);
    AtStart(s);
    assert Wrap(0) == 0;
    hide Wrap, Scan, Ahead, ItemAt;
    while i < |s|
      invariant 1 <= i <= |s|
      invariant total == Wrap(exact)
      invariant Ahead(whole, s, i, inTime, exact)
      decreases |s| - i
    {
      if s[i] == 'T' {
        OverMark(whole, s, i, inTime, exact);
        inTime := true;
        i := i + 1;
      } else {
        ghost var v: int;
        var d, next;
        d, next, v := ReadItem(s, i, inTime);
        if d.None? {
          NoItem(whole, s, i, inTime, exact);
          return None;
        }
        OverItem(whole, s, i, next, inTime, exact, v);
        total := AddLength(total, d.value, exact, v);
        exact := exact + v;
        i := next;
      }
    }
    AtEnd(whole, s, inTime, exact);
    r := Some(total);
  }

  // ---------------------------------------------------------------------------------
  // The accepted language.
  // ---------------------------------------------------------------------------------

  datatype Token = TimeMark | Item(digits: Bytes, unit: char)

  function PrintToken(t: Token): Bytes {
    match t
    case TimeMark => "T"
    case Item(ds, u) => ds + [u]
  }

  function Print(tokens: seq<Token>): Bytes {
    if tokens == [] then "" else PrintToken(tokens[0]) + Print(tokens[1..])
  }

  predicate TokenFits(t: Token, inTime: bool) {
    t.Item? ==> t.digits != "" && AllDigits(t.digits) && IsUnit(inTime, t.unit)
  }

  /** Day items, then optionally a T followed by hour, minute and second items and further Ts. */
  predicate WellFormed(tokens: seq<Token>, inTime: bool) {
    tokens == [] ||
    (TokenFits(tokens[0], inTime) && WellFormed(tokens[1..], inTime || tokens[0].TimeMark?))
  }

  function TokenLength(t: Token, inTime: bool): int
    requires TokenFits(t, inTime)
  {
    if t.TimeMark? then 0 else Length(Value(t.digits), inTime, t.unit)
  }

  function Sum(tokens: seq<Token>, inTime: bool): int
    requires WellFormed(tokens, inTime)
  {
    if tokens == [] then 0
    else TokenLength(tokens[0], inTime) + Sum(tokens[1..], inTime || tokens[0].TimeMark?)
  }

  lemma {:induction false} DigitRunOfItem(ds: Bytes, u: char, rest: Bytes)
    requires AllDigits(ds) && !IsDigit(u)
    ensures DigitRun(ds + [u] + rest) == |ds|
  {
    var s := ds + [u] + rest;
    if ds != "" {
      assert s[1..] == ds[1..] + [u] + rest;
      DigitRunOfItem(ds[1..], u, rest);
    }
  }

  lemma ScanOfItem(ds: Bytes, u: char, rest: Bytes, inTime: bool)
    requires ds != "" && AllDigits(ds) && IsUnit(inTime, u)
    ensures Scan(ds + [u] + rest, inTime) == Plus(Length(Value(ds), inTime, u), Scan(rest, inTime))
  {
    DigitRunOfItem(ds, u, rest);
    ItemParts(ds + [u] + rest, ds, u, rest);
    ScanAt(ds + [u] + rest, ds, u, rest, inTime);
  }

  lemma ItemParts(s: Bytes, ds: Bytes, u: char, rest: Bytes)
    requires s == ds + [u] + rest
    ensures s[|ds|] == u && s[..|ds|] == ds && s[|ds| + 1..] == rest
  {
  }

  lemma ScanOfMark(s: Bytes, rest: Bytes, inTime: bool)
    requires s == "T" + rest
    ensures Scan(s, inTime) == Scan(rest, true)
  {
    assert s[1..] == rest;
  }

  lemma ScanOfToken(s: Bytes, t: Token, rest: Bytes, inTime: bool, sum: int)
    requires s == PrintToken(t) + rest
    requires TokenFits(t, inTime) && Scan(rest, inTime || t.TimeMark?) == Some(sum)
    ensures Scan(s, inTime) == Some(TokenLength(t, inTime) + sum)
  {
    if t.TimeMark? { ScanOfMark(s, rest, inTime); } else { ScanOfItem(t.digits, t.unit, rest, inTime); }
  }

  /** Parsing what is printed gives back its value. */
  lemma {:induction false} ScanOfPrint(tokens: seq<Token>, inTime: bool)
    requires WellFormed(tokens, inTime)
    ensures Scan(Print(tokens), inTime) == Some(Sum(tokens, inTime))
  {
    if tokens != [] {
      hide Scan;
      var t, rest := tokens[0], tokens[1..];
      ScanOfPrint(rest, inTime || t.TimeMark?);
      ScanOfToken(Print(tokens), t, Print(rest), inTime, Sum(rest, inTime || t.TimeMark?));
    }
  }

  /** The tokens of an accepted text. */
  lemma {:induction false} TokensOf(s: Bytes, inTime: bool) returns (tokens: seq<Token>)
    requires Scan(s, inTime).Some?
    ensures WellFormed(tokens, inTime) && Print(tokens) == s
    decreases |s|
  {
    if s == "" {
      tokens := [];
    } else if s[0] == 'T' {
      var rest := TokensOf(s[1..], true);
      tokens := [TimeMark] + rest;
    } else {
      var n := DigitRun(s);
      DigitRunIsAll(s);
      var rest := TokensOf(s[n + 1..], inTime);
      tokens := [Item(s[..n], s[n])] + rest;
      assert s == s[..n] + [s[n]] + s[n + 1..];
    }
  }

  /** The scanner accepts exactly the printed well-formed token lists behind a P, and its value
      is their sum. */
  lemma ParseAcceptsExactly(s: Bytes, v: int)
    ensures Parse(s) == Some(v) <==>
      |s| >= 2 && s[0] == 'P' &&
      exists tokens :: WellFormed(tokens, false) && "P" + Print(tokens) == s && Sum(tokens, false) == v
  {
    if Parse(s).Some? {
      var tokens := TokensOf(s[1..], false);
      assert "P" + Print(tokens) == s;
      ScanOfPrint(tokens, false);
    }
    forall tokens | WellFormed(tokens, false) && "P" + Print(tokens) == s
      ensures Scan(s[1..], false) == Some(Sum(tokens, false))
    {
      assert s[1..] == Print(tokens);
      ScanOfPrint(tokens, false);
    }
  }

  // ---------------------------------------------------------------------------------
  // The day and time durations of the grammar in Appendix A of RFC 3339.
  // ---------------------------------------------------------------------------------

  datatype DurMinute = DurMinute(m: Bytes, s: Option<Bytes>)
  datatype DurTime = Hours(h: Bytes, rest: Option<DurMinute>) | Minutes(m: DurMinute) | Seconds(s: Bytes)
  datatype Duration = Days(d: Bytes, time: Option<DurTime>) | TimeOnly(time0: DurTime)

  function MinuteTokens(m: DurMinute): seq<Token> {
    [Item(m.m, 'M')] + if m.s.Some? then [Item(m.s.value, 'S')] else []
  }

  function TimeTokens(t: DurTime): seq<Token> {
    match t
    case Hours(h, rest) => [TimeMark, Item(h, 'H')] + if rest.Some? then MinuteTokens(rest.value) else []
    case Minutes(m) => [TimeMark] + MinuteTokens(m)
    case Seconds(s) => [TimeMark, Item(s, 'S')]
  }

  function DurationTokens(d: Duration): seq<Token> {
    match d
    case Days(ds, time) => [Item(ds, 'D')] + if time.Some? then TimeTokens(time.value) else []
    case TimeOnly(t) => TimeTokens(t)
  }

  predicate Numbers(tokens: seq<Token>) {
    forall t <- tokens :: t.Item? ==> t.digits != "" && AllDigits(t.digits)
  }

  function MinuteValue(m: DurMinute): int
    requires Numbers(MinuteTokens(m))
  {
    assert MinuteTokens(m)[0].Item?;
    Value(m.m) * MINUTE +
    if m.s.Some? then assert MinuteTokens(m)[1].Item?; Value(m.s.value) * SECOND else 0
  }

  function TimeValue(t: DurTime): int
    requires Numbers(TimeTokens(t))
  {
    match t
    case Hours(h, rest) =>
      assert TimeTokens(t)[1].Item?;
      Value(h) * HOUR +
      if rest.Some? then
        assert TimeTokens(t)[2..] == MinuteTokens(rest.value);
        MinuteValue(rest.value)
      else 0
    case Minutes(m) =>
      assert TimeTokens(t)[1..] == MinuteTokens(m);
      MinuteValue(m)
    case Seconds(s) =>
      assert TimeTokens(t)[1].Item?;
      Value(s) * SECOND
  }

  function DurationValue(d: Duration): int
    requires Numbers(DurationTokens(d))
  {
    match d
    case Days(ds, time) =>
      assert DurationTokens(d)[0].Item?;
      Value(ds) * (24 * HOUR) +
      if time.Some? then
        assert DurationTokens(d)[1..] == TimeTokens(time.value);
        TimeValue(time.value)
      else 0
    case TimeOnly(t) => TimeValue(t)
  }

  /** A list that starts with an item. */
  lemma SumOfItem(ts: seq<Token>, ds: Bytes, u: char, inTime: bool)
    requires ts != [] && ts[0] == Item(ds, u)
    requires ds != "" && AllDigits(ds) && IsUnit(inTime, u) && WellFormed(ts[1..], inTime)
    ensures WellFormed(ts, inTime)
    ensures Sum(ts, inTime) == Length(Value(ds), inTime, u) + Sum(ts[1..], inTime)
  {
  }

  lemma MinuteSum(m: DurMinute)
    requires Numbers(MinuteTokens(m))
    ensures WellFormed(MinuteTokens(m), true) && Sum(MinuteTokens(m), true) == MinuteValue(m)
  {
    var ts := MinuteTokens(m);
    assert ts[0].Item?;
    if m.s.Some? {
      assert ts[1].Item?;
      assert ts[1..] == [Item(m.s.value, 'S')];
      assert ts[1..][1..] == [];
      SumOfItem(ts[1..], m.s.value, 'S', true);
    } else {
      assert ts[1..] == [];
    }
    SumOfItem(ts, m.m, 'M', true);
  }

  lemma TimeSum(t: DurTime)
    requires Numbers(TimeTokens(t))
    ensures WellFormed(TimeTokens(t), false) && Sum(TimeTokens(t), false) == TimeValue(t)
  {
    var ts := TimeTokens(t);
    var after := ts[1..];
    match t {
      case Hours(h, rest) =>
        assert ts[1].Item?;
        if rest.Some? {
          assert after[1..] == ts[2..] == MinuteTokens(rest.value);
          MinuteSum(rest.value);
        } else {
          assert after[1..] == [];
        }
        SumOfItem(after, h, 'H', true);
      case Minutes(m) =>
        assert after == MinuteTokens(m);
        MinuteSum(m);
      case Seconds(s) =>
        assert ts[1].Item?;
        assert after[1..] == [];
        SumOfItem(after, s, 'S', true);
    }
    assert ts[0] == TimeMark && WellFormed(after, true);
    assert Sum(ts, false) == Sum(after, true);
  }

  lemma DurationSum(d: Duration)
    requires Numbers(DurationTokens(d))
    ensures WellFormed(DurationTokens(d), false) && Sum(DurationTokens(d), false) == DurationValue(d)
  {
    var ts := DurationTokens(d);
    match d
    case Days(ds, time) =>
      assert ts[0].Item?;
      if time.Some? {
        assert ts[1..] == TimeTokens(time.value);
        TimeSum(time.value);
      } else {
        assert ts[1..] == [];
      }
      SumOfItem(ts, ds, 'D', false);
    case TimeOnly(t) => TimeSum(t);
  }

  /** Every day or time duration of the RFC's grammar is accepted with its value. */
  lemma Rfc3339DurationsParse(d: Duration)
    requires Numbers(DurationTokens(d))
    ensures Parse("P" + Print(DurationTokens(d))) == Some(DurationValue(d))
  {
    var ts := DurationTokens(d);
    DurationSum(d);
    var s := "P" + Print(ts);
    assert s[1..] == Print(ts);
    ScanOfPrint(ts, false);
    assert |Print(ts)| > 0;
  }
}
