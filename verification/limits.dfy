/** The item-count limits of the news routes (server.js): the `limit` query
    parameter goes through `parseInt`, is capped with `Math.min`, and ends an
    `Array.prototype.slice(0, end)` of the parsed items. A non-numeric limit is
    NaN, which the slice reads as 0; a negative one counts from the end. */
module Limits {
  import opened Network
  import SearchTerm

  /** The value of `c` as a digit in base `radix` (10 or 16). */
  function DigitValue(c: char, radix: nat): (d: Option<nat>)
    requires radix == 10 || radix == 16
    ensures d.Some? ==> d.value < radix
  {
    if '0' <= c <= '9' then Some(c as nat - '0' as nat)
    else if radix == 16 && 'a' <= c <= 'f' then Some(c as nat - 'a' as nat + 10)
    else if radix == 16 && 'A' <= c <= 'F' then Some(c as nat - 'A' as nat + 10)
    else None
  }

  predicate AllDigits(s: string, radix: nat)
    requires radix == 10 || radix == 16
  {
    forall i :: 0 <= i < |s| ==> DigitValue(s[i], radix).Some?
  }

  /** The longest prefix of `s` made of digits. */
  function DigitPrefix(s: string, radix: nat): (p: string)
    requires radix == 10 || radix == 16
    ensures |p| <= |s| && p == s[..|p|]
    ensures AllDigits(p, radix)
    ensures |p| < |s| ==> DigitValue(s[|p|], radix).None?
  {
    if |s| == 0 || DigitValue(s[0], radix).None? then ""
    else
      var rest := DigitPrefix(s[1..], radix);
      assert ([s[0]] + rest)[1..] == rest;
      [s[0]] + rest
  }

  /** The number a string of digits denotes, most significant digit first. */
  function DigitsValue(s: string, radix: nat): nat
    requires radix == 10 || radix == 16
    requires AllDigits(s, radix)
  {
    if |s| == 0 then 0
    else DigitsValue(s[..|s| - 1], radix) * radix + DigitValue(s[|s| - 1], radix).value
  }

  /** `s` with its leading whitespace removed. */
  function TrimStart(s: string): (t: string)
    ensures |t| <= |s| && t == s[|s| - |t|..]
    ensures |t| > 0 ==> !SearchTerm.IsJsSpace(t[0])
  {
    if |s| > 0 && SearchTerm.IsJsSpace(s[0]) then TrimStart(s[1..]) else s
  }

  /** The magnitude an unsigned numeral starts with: hexadecimal after "0x" or "0X",
      decimal otherwise; `None` when no digit follows. */
  function ParseUnsigned(u: string): (r: Option<nat>)
  {
    var hex := |u| >= 2 && u[0] == '0' && (u[1] == 'x' || u[1] == 'X');
    var radix := if hex then 16 else 10;
    var digits := DigitPrefix(if hex then u[2..] else u, radix);
    if |digits| == 0 then None else Some(DigitsValue(digits, radix))
  }

  /** The reading of text with no leading whitespace: an optional sign, then a magnitude. */
  function ParseSigned(t: string): (r: Option<int>)
  {
    if |t| > 0 && t[0] == '-' then
      match ParseUnsigned(t[1..])
      case None => None
      case Some(v) => Some(-(v as int))
    else if |t| > 0 && t[0] == '+' then ParseUnsigned(t[1..])
    else ParseUnsigned(t)
  }

  /** `parseInt(s)` with no radix: `None` is NaN. A "-0" is read as 0, which no use of the
      result tells apart. */
  function ParseInt(s: string): (r: Option<int>)
    ensures var t := TrimStart(s);
      var u := if |t| > 0 && (t[0] == '-' || t[0] == '+') then t[1..] else t;
      && (r.None? <==> ParseUnsigned(u).None?)
      && (r.Some? && |t| > 0 && t[0] == '-' ==> r.value == -(ParseUnsigned(u).value as int))
      && (r.Some? && !(|t| > 0 && t[0] == '-') ==> r.value == ParseUnsigned(u).value)
  {
    ParseSigned(TrimStart(s))
  }

  /** The decimal numeral of `n`, as `String(n)` writes it. */
  function Decimal(n: nat): (s: string)
    ensures |s| > 0 && AllDigits(s, 10)
  {
    var last := ['0' + (n % 10) as char];
    if n < 10 then last else Decimal(n / 10) + last
  }

  function IntToString(n: int): string
  {
    if n < 0 then "-" + Decimal(-n) else Decimal(n)
  }

  lemma {:induction false} DecimalValue(n: nat)
    ensures DigitsValue(Decimal(n), 10) == n
  {
    var s := Decimal(n);
    if n >= 10 {
      DecimalValue(n / 10);
      assert s[..|s| - 1] == Decimal(n / 10);
    }
  }

  /** A string of digits is its own longest digit prefix. */
  lemma {:induction false} DigitPrefixOfDigits(s: string, radix: nat)
    requires radix == 10 || radix == 16
    requires AllDigits(s, radix)
    ensures DigitPrefix(s, radix) == s
  {
    if |s| > 0 {
      DigitPrefixOfDigits(s[1..], radix);
    }
  }

  /** A non-empty string of decimal digits is read as the number it denotes. */
  lemma ParseUnsignedOfDigits(d: string)
    requires |d| > 0 && AllDigits(d, 10)
    ensures ParseUnsigned(d) == Some(DigitsValue(d, 10))
  {
    DigitPrefixOfDigits(d, 10);
    assert |d| >= 2 ==> DigitValue(d[1], 10).Some?;
    assert !(|d| >= 2 && d[0] == '0' && (d[1] == 'x' || d[1] == 'X'));
  }

  /** Text that starts with neither whitespace nor a sign is read unsigned. */
  lemma ParseIntUnsigned(u: string)
    requires |u| > 0 && !SearchTerm.IsJsSpace(u[0]) && u[0] != '-' && u[0] != '+'
    ensures ParseInt(u) == ParseUnsigned(u)
  {
    assert TrimStart(u) == u;
  }

  /** Text that starts with a minus sign is read as the negated unsigned reading of the rest. */
  lemma ParseIntNegative(u: string, v: nat)
    requires ParseUnsigned(u) == Some(v)
    ensures ParseInt("-" + u) == Some(-(v as int))
  {
    var s := "-" + u;
    assert TrimStart(s) == s;
    assert s[1..] == u;
  }

  /** A numeral of decimal digits is read as its value. */
  lemma ParseIntOfDigits(d: string)
    requires |d| > 0 && AllDigits(d, 10)
    ensures ParseInt(d) == Some(DigitsValue(d, 10))
  {
    assert !SearchTerm.IsJsSpace(d[0]) && d[0] != '-' && d[0] != '+' by {
      assert DigitValue(d[0], 10).Some?;
      assert '0' <= d[0] <= '9';
    }
    ParseUnsignedOfDigits(d);
    ParseIntUnsigned(d);
  }

  /** `parseInt` reads back every integer's decimal numeral. */
  lemma ParseIntDecimal(n: int)
    ensures ParseInt(IntToString(n)) == Some(n)
  {
    var m := if n < 0 then -n else n;
    DecimalValue(m);
    ParseUnsignedOfDigits(Decimal(m));
    if n < 0 {
      ParseIntNegative(Decimal(m), m);
    } else {
      ParseIntOfDigits(Decimal(m));
    }
  }

  /** Leading whitespace is skipped. */
  lemma ParseIntSkipsSpace(c: char, s: string)
    requires SearchTerm.IsJsSpace(c)
    ensures ParseInt([c] + s) == ParseInt(s)
  {
    assert ([c] + s)[1..] == s;
    assert TrimStart([c] + s) == TrimStart(s);
  }

  /** Reading stops at the first character that is not a digit. */
  lemma ParseIntStopsAtJunk()
    ensures ParseInt("12abc") == Some(12)
  {
    assert DigitPrefix("12abc", 10) == "12" by {
      assert "12abc"[1..] == "2abc";
      assert "2abc"[1..] == "abc";
    }
    assert DigitsValue("12", 10) == 12 by {
      assert "12"[..1] == "1";
    }
    ParseIntUnsigned("12abc");
  }

  /** A "0x" prefix switches to hexadecimal. */
  lemma ParseIntHex()
    ensures ParseInt("0x1F") == Some(31)
  {
    assert "0x1F"[2..] == "1F";
    assert DigitPrefix("1F", 16) == "1F" by {
      assert "1F"[1..] == "F";
    }
    assert DigitsValue("1F", 16) == 31 by {
      assert "1F"[..1] == "1";
    }
    ParseIntUnsigned("0x1F");
  }

  /** Text with no leading digit is NaN. */
  lemma ParseIntNaN()
    ensures ParseInt("abc") == None
    ensures ParseInt("") == None
  {
    ParseIntUnsigned("abc");
  }

  /** `Math.min(x, cap)`, where NaN stays NaN. */
  function Min(x: Option<int>, cap: int): (m: Option<int>)
    ensures m.Some? <==> x.Some?
    ensures m.Some? ==> m.value <= cap && m.value <= x.value && (m.value == cap || m.value == x.value)
  {
    match x
    case None => None
    case Some(n) => Some(if n < cap then n else cap)
  }

  /** `items.slice(0, end)`, with `None` standing for NaN. */
  function Slice<T>(items: seq<T>, end: Option<int>): (r: seq<T>)
    ensures |r| <= |items| && r == items[..|r|]
    ensures end.None? ==> |r| == 0
    ensures end.Some? && end.value >= 0 ==> |r| == (if end.value < |items| then end.value else |items|)
    ensures end.Some? && end.value < 0 ==> |r| == (if |items| + end.value > 0 then |items| + end.value else 0)
  {
    match end
    case None => []
    case Some(e) =>
      if e >= 0 then items[..if e < |items| then e else |items|]
      else items[..if |items| + e > 0 then |items| + e else 0]
  }

  /** `parseInt(limit)`, where an absent query parameter takes the route's default number. */
  function ParseLimit(limit: Option<string>, default: nat): (n: Option<int>)
    ensures limit.None? ==> n == Some(default)
  {
    match limit
    case None => Some(default)
    case Some(s) => ParseInt(s)
  }

  /** `items.slice(0, Math.min(parseInt(limit), cap))`, as the company, sector and search
      routes cut their items (cap 50) and the all-news route cuts each company's (cap 20). */
  function Shown<T>(items: seq<T>, limit: Option<string>, default: nat, cap: nat): (r: seq<T>)
    ensures |r| <= |items| && r == items[..|r|]
    ensures var n := ParseLimit(limit, default);
      && (n.None? ==> r == [])
      && (n.Some? && n.value >= 0 ==>
            var m := if n.value < cap then n.value else cap;
            |r| == (if m < |items| then m else |items|))
      && (n.Some? && n.value < 0 ==> |r| == (if |items| + n.value > 0 then |items| + n.value else 0))
  {
    Slice(items, Min(ParseLimit(limit, default), cap))
  }

  /** A non-negative limit keeps the first `min(limit, cap, |items|)` items. */
  lemma ShownNonNegative<T>(items: seq<T>, n: nat, cap: nat)
    ensures var r := Shown(items, Some(IntToString(n)), 0, cap);
      var m := if n < cap then n else cap;
      && |r| == (if m < |items| then m else |items|)
      && r == items[..|r|]
  {
    ParseIntDecimal(n);
    assert ParseLimit(Some(IntToString(n)), 0) == Some(n);
  }

  /** Without a limit the route's default applies. */
  lemma ShownDefault<T>(items: seq<T>, default: nat, cap: nat)
    ensures var m := if default < cap then default else cap;
      Shown(items, None, default, cap) == items[..if m < |items| then m else |items|]
  {
  }

  /** A limit that is not a number shows no items at all. */
  lemma NonNumericLimitShowsNothing<T>(items: seq<T>, limit: string, default: nat, cap: nat)
    requires ParseInt(limit) == None
    ensures Shown(items, Some(limit), default, cap) == []
  {
  }

  /** A negative limit `-d` drops the last `d` items instead of keeping a prefix of length 0. */
  lemma NegativeLimitDropsFromEnd<T>(items: seq<T>, d: nat, cap: nat)
    requires 0 < d <= |items|
    ensures Shown(items, Some(IntToString(-(d as int))), 0, cap) == items[..|items| - d]
  {
    ParseIntDecimal(-(d as int));
  }

  /** The cap does not hold as written: a limit of -1 shows all items but the last, however
      many there are. */
  lemma NegativeLimitExceedsCap<T>(items: seq<T>, default: nat, cap: nat)
    requires |items| > cap + 1
    ensures |Shown(items, Some("-1"), default, cap)| == |items| - 1 > cap
  {
    ParseIntMinusOne();
    MinusOneDropsLast(items, Some("-1"), default, cap);
  }

  lemma MinusOneDropsLast<T>(items: seq<T>, limit: Option<string>, default: nat, cap: nat)
    requires |items| > 0 && ParseLimit(limit, default) == Some(-1)
    ensures Shown(items, limit, default, cap) == items[..|items| - 1]
  {
  }

  lemma ParseIntMinusOne()
    ensures ParseInt("-1") == Some(-1)
  {
    assert DigitsValue("1", 10) == 1 by {
      assert "1"[..0] == "";
    }
    ParseUnsignedOfDigits("1");
    ParseIntNegative("1", 1);
    assert "-" + "1" == "-1";
  }

  /** The cut the routes evidently intend: at most `cap` items, with a negative limit
      showing none; it agrees with `Shown` for every other limit. */
  function ShownCapped<T>(items: seq<T>, limit: Option<string>, default: nat, cap: nat): (r: seq<T>)
    ensures |r| <= cap && |r| <= |items| && r == items[..|r|]
    ensures var n := ParseLimit(limit, default);
      && (n.Some? && n.value < 0 ==> r == [])
      && (!(n.Some? && n.value < 0) ==> r == Shown(items, limit, default, cap))
  {
    var end := Min(ParseLimit(limit, default), cap);
    Slice(items, if end.Some? && end.value < 0 then Some(0) else end)
  }

  /** Which cut a route applies to its items: the code's `Shown`, or the evidently
      intended `ShownCapped`. */
  datatype Cut = AsWritten | Capped

  function CutItems<T>(cut: Cut, items: seq<T>, limit: Option<string>, default: nat, cap: nat): (r: seq<T>)
    ensures |r| <= |items| && r == items[..|r|]
    ensures cut.Capped? ==> |r| <= cap
  {
    match cut
    case AsWritten => Shown(items, limit, default, cap)
    case Capped => ShownCapped(items, limit, default, cap)
  }

  /** As written, a limit of -1 keeps every item but the last. */
  lemma CutAllButLast<T>(items: seq<T>, default: nat, cap: nat)
    requires |items| > 0
    ensures CutItems(AsWritten, items, Some("-1"), default, cap) == items[..|items| - 1]
  {
    ParseIntMinusOne();
    MinusOneDropsLast(items, Some("-1"), default, cap);
  }

  /** `allNews.slice(0, parseInt(totalLimit) || allNews.length)`: NaN and 0 both mean "all". */
  function TotalShown<T>(items: seq<T>, totalLimit: Option<string>): (r: seq<T>)
    ensures |r| <= |items| && r == items[..|r|]
    ensures totalLimit.None? ==> r == items
    ensures totalLimit.Some? && (ParseInt(totalLimit.value).None? || ParseInt(totalLimit.value) == Some(0)) ==> r == items
    ensures totalLimit.Some? && ParseInt(totalLimit.value).Some? && ParseInt(totalLimit.value).value > 0 ==>
      r == Slice(items, ParseInt(totalLimit.value))
  {
    var n := if totalLimit.None? then None else ParseInt(totalLimit.value);
    var end := if n.None? || n.value == 0 then |items| else n.value;
    Slice(items, Some(end))
  }
}
