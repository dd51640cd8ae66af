// platform_format_integer and platform_format_compact, with readers for their text.
module NumberFormats {
  import opened Wrappers
  import opened Decimal

  // ---------- format_integer ----------

  // Commas between groups of three digits.
  function Grouped(digits: string): string {
    if |digits| <= 3 then digits else Grouped(digits[..|digits| - 3]) + "," + digits[|digits| - 3..]
  }

  // to_char(coalesce(value, 0), 'FM999,999,999,990'): the picture has twelve digits, and a number
  // that needs more prints as number signs.
  function FormatInteger(value: Option<int>): string {
    var v := value.GetOr(0);
    var digits := Dec(if v < 0 then -v else v);
    (if v < 0 then "-" else "") + (if |digits| <= 12 then Grouped(digits) else "###,###,###,###")
  }

  function DropCommas(s: string): string {
    if s == "" then "" else (if s[0] == ',' then "" else [s[0]]) + DropCommas(s[1..])
  }

  function ReadInteger(s: string): Option<nat> {
    var digits := DropCommas(s);
    if digits != "" && AllDigits(digits) then Some(Undec(digits)) else None
  }

  lemma DropCommasCons(c: char, s: string)
    ensures DropCommas([c] + s) == if c == ',' then DropCommas(s) else [c] + DropCommas(s)
  {
    assert ([c] + s)[1..] == s;
  }

  lemma AppendAssociates(a: string, b: string, c: string)
    ensures a + (b + c) == a + b + c
  {
  }

  lemma DropCommasConsAppend(c: char, s: string, b: string)
    requires DropCommas(s + b) == DropCommas(s) + DropCommas(b)
    ensures DropCommas(([c] + s) + b) == DropCommas([c] + s) + DropCommas(b)
  {
    assert ([c] + s) + b == [c] + (s + b);
    DropCommasCons(c, s + b);
    DropCommasCons(c, s);
    AppendAssociates([c], DropCommas(s), DropCommas(b));
  }

  lemma {:induction false} DropCommasAppend(a: string, b: string)
    ensures DropCommas(a + b) == DropCommas(a) + DropCommas(b)
  {
    if a == "" {
      assert a + b == b;
    } else {
      DropCommasAppend(a[1..], b);
      assert a == [a[0]] + a[1..];
      DropCommasConsAppend(a[0], a[1..], b);
    }
  }

  lemma {:induction false} DropCommasFixed(s: string)
    requires ',' !in s
    ensures DropCommas(s) == s
  {
    if s != "" {
      DropCommasFixed(s[1..]);
      assert s == [s[0]] + s[1..];
    }
  }

  lemma {:induction false} UngroupedDigits(digits: string)
    requires AllDigits(digits)
    ensures DropCommas(Grouped(digits)) == digits
  {
    if |digits| <= 3 {
      DropCommasFixed(digits);
    } else {
      var head, tail := digits[..|digits| - 3], digits[|digits| - 3..];
      UngroupedDigits(head);
      DropCommasFixed(tail);
      DropCommasAppend(Grouped(head) + ",", tail);
      DropCommasAppend(Grouped(head), ",");
      assert digits == head + tail && head + "" == head;
    }
  }

  // Counted from the right, every fourth character is a comma and no other, and the text does not begin
  // with one.
  ghost predicate HasGroupsOfThree(s: string) {
    && (forall k :: 0 <= k < |s| ==> (s[|s| - 1 - k] == ',' <==> k % 4 == 3))
    && (s != "" ==> s[0] != ',')
  }

  lemma {:induction false} GroupsOfThree(digits: string)
    requires AllDigits(digits)
    ensures HasGroupsOfThree(Grouped(digits))
  {
    if |digits| > 3 {
      var head, tail := digits[..|digits| - 3], digits[|digits| - 3..];
      GroupsOfThree(head);
      GroupAppends(Grouped(head), tail);
      assert head != "" && Grouped(head) != "" by { UngroupedDigits(head); }
    }
  }

  lemma GroupAppends(head: string, tail: string)
    requires HasGroupsOfThree(head) && head != "" && |tail| == 3 && AllDigits(tail)
    ensures HasGroupsOfThree(head + "," + tail)
  {
    var s := head + "," + tail;
    forall k | 0 <= k < |s|
      ensures s[|s| - 1 - k] == ',' <==> k % 4 == 3
    {
      if k < 3 {
        assert s[|s| - 1 - k] == tail[2 - k];
      } else if k == 3 {
        assert s[|head|] == ',';
      } else {
        var l := k - 4;
        assert s[|s| - 1 - k] == head[|head| - 1 - l] && l % 4 == k % 4;
      }
    }
  }

  // A number in range prints its digits in groups of three, with a sign in front when it is negative, and
  // null prints as zero.
  lemma IntegerText(value: Option<int>)
    ensures var v := value.GetOr(0);
            -1000000000000 < v < 1000000000000 ==>
              var s := FormatInteger(value);
              var digits := if v < 0 then s[1..] else s;
              && (v < 0 ==> s != "" && s[0] == '-')
              && HasGroupsOfThree(digits) && ReadInteger(digits) == Some(if v < 0 then -v else v)
  {
    var v := value.GetOr(0);
    var size: nat := if v < 0 then -v else v;
    NonNegativeFormat(size);
    IntegerRoundTrip(size);
    PictureHasRoom(size);
    GroupsOfThree(Dec(size));
    if v < 0 && size < 1000000000000 {
      assert FormatInteger(value) == "-" + Grouped(Dec(size));
      assert ("-" + Grouped(Dec(size)))[1..] == Grouped(Dec(size));
    }
  }

  lemma OverflowIsUnreadable(s: string)
    requires s == "###,###,###,###"
    ensures ReadInteger(s).None?
  {
    assert DropCommas(s)[0] == '#';
  }

  // Dropping the commas gives the number back, exactly for the numbers the picture has room for.
  lemma IntegerRoundTrip(v: nat)
    ensures ReadInteger(FormatInteger(Some(v))) == if v < 1000000000000 then Some(v) else None
  {
    NonNegativeFormat(v);
    PictureHasRoom(v);
    if |Dec(v)| <= 12 {
      UngroupedDigits(Dec(v));
      UndecDec(v);
    } else {
      OverflowIsUnreadable(FormatInteger(Some(v)));
    }
  }

  lemma NonNegativeFormat(v: nat)
    ensures FormatInteger(Some(v)) == if |Dec(v)| <= 12 then Grouped(Dec(v)) else "###,###,###,###"
  {
    var text := if |Dec(v)| <= 12 then Grouped(Dec(v)) else "###,###,###,###";
    assert "" + text == text;
  }

  lemma PictureHasRoom(v: nat)
    ensures |Dec(v)| <= 12 <==> v < 1000000000000
  {
    DecLength(v, 12);
    TenToTheTwelfth();
  }

  lemma TenToTheTwelfth()
    ensures Pow10(12) == 1000000000000
  {
    assert Pow10(3) == 1000;
    assert Pow10(6) == 1000000;
    assert Pow10(9) == 1000000000;
  }

  // ---------- format_compact ----------

  // to_char(x, 'FM990.0') of a number of tenths: three integer digits, and number signs beyond.
  function TenthsText(tenths: nat): string {
    if tenths < 10000 then Dec(tenths / 10) + "." + [Digit(tenths % 10)] else "###.#"
  }

  // value / unit in tenths, halves rounded up
  function Tenths(value: nat, unit: nat): nat
    requires unit > 0
  {
    (20 * value + unit) / (2 * unit)
  }

  function FormatCompact(value: Option<int>): string {
    match value
    case None => "0"
    case Some(v) =>
      if v >= 1000000 then TenthsText(Tenths(v, 1000000)) + "m"
      else if v >= 1000 then TenthsText(Tenths(v, 1000)) + "k"
      else FormatInteger(value)
  }

  function ReadTenths(s: string): Option<nat> {
    var n := |s|;
    if n >= 3 && s[n - 2] == '.' && AllDigits(s[..n - 2]) && IsDigit(s[n - 1])
    then Some(Undec(s[..n - 2]) * 10 + DigitValue(s[n - 1]))
    else None
  }

  // The number a compact text stands for.
  function ReadCompact(s: string): Option<nat> {
    if s == "" then None
    else
      var init, last := s[..|s| - 1], s[|s| - 1];
      if last == 'm' || last == 'k' then
        match ReadTenths(init)
        case None => None
        case Some(tenths) => Some(tenths * (if last == 'm' then 100000 else 100))
      else ReadInteger(s)
  }

  lemma ReadsTenths(tenths: nat)
    ensures ReadTenths(TenthsText(tenths)) == if tenths < 10000 then Some(tenths) else None
  {
    var s := TenthsText(tenths);
    if tenths < 10000 {
      UndecDec(tenths / 10);
      assert s[..|s| - 2] == Dec(tenths / 10);
    } else {
      assert s == "###.#" && s[4] == '#';
    }
  }

  lemma ReadsScaled(tenths: nat, suffix: char)
    requires suffix == 'm' || suffix == 'k'
    ensures ReadCompact(TenthsText(tenths) + [suffix]) ==
            if tenths < 10000 then Some(tenths * (if suffix == 'm' then 100000 else 100)) else None
  {
    var s := TenthsText(tenths) + [suffix];
    ReadsTenths(tenths);
    assert s[..|s| - 1] == TenthsText(tenths);
  }

  // Reference definition: the number rounded to tenths of its unit, or nothing when the rounding
  // needs a fourth integer digit.
  function CompactValue(v: nat): Option<nat> {
    if v < 1000 then Some(v)
    else if v < 999950 then Some(100 * ((v + 50) / 100))
    else if v < 1000000 then None
    else if v < 999950000 then Some(100000 * ((v + 50000) / 100000))
    else None
  }

  lemma MillionsValue(v: nat)
    requires v >= 1000000
    ensures var t := Tenths(v, 1000000); CompactValue(v) == if t < 10000 then Some(t * 100000) else None
  {
    assert (20 * v + 1000000) / 2000000 == (v + 50000) / 100000;
  }

  lemma ThousandsValue(v: nat)
    requires 1000 <= v < 1000000
    ensures var t := Tenths(v, 1000); CompactValue(v) == if t < 10000 then Some(t * 100) else None
  {
    assert (20 * v + 1000) / 2000 == (v + 50) / 100;
  }

  lemma CompactReads(v: nat)
    ensures ReadCompact(FormatCompact(Some(v))) == CompactValue(v)
  {
    if v >= 1000000 {
      ReadsScaled(Tenths(v, 1000000), 'm');
      MillionsValue(v);
    } else if v >= 1000 {
      ReadsScaled(Tenths(v, 1000), 'k');
      ThousandsValue(v);
    } else {
      SmallIntegers(v);
    }
  }

  lemma SmallIntegers(v: nat)
    requires v < 1000
    ensures ReadCompact(FormatInteger(Some(v))) == Some(v)
  {
    var s := FormatInteger(Some(v));
    IntegerRoundTrip(v);
    DecLength(v, 3);
    assert Pow10(3) == 1000;
    assert s == Dec(v);
    assert IsDigit(s[|s| - 1]);
  }

  lemma SmallCompact(value: Option<int>)
    ensures value == None ==> FormatCompact(value) == "0"
    ensures value.Some? && value.value < 1000 ==> FormatCompact(value) == FormatInteger(value)
  {
  }

  lemma CompactValueIsClose(v: nat, w: nat)
    requires 1000 <= v <= w < 999950 || 1000000 <= v <= w < 999950000
    ensures var low, high, slack := CompactValue(v), CompactValue(w), if v < 1000000 then 50 else 50000;
            && low.Some? && high.Some? && low.value <= high.value
            && v - slack <= low.value <= v + slack
  {
  }

  // Within 50 of the number below a million, within 50000 from there, and never out of order inside
  // either range.
  lemma CompactIsCloseAndMonotone(v: nat, w: nat)
    requires 1000 <= v <= w < 999950 || 1000000 <= v <= w < 999950000
    ensures var low, high := ReadCompact(FormatCompact(Some(v))), ReadCompact(FormatCompact(Some(w)));
            var slack := if v < 1000000 then 50 else 50000;
            && low.Some? && high.Some? && low.value <= high.value
            && v - slack <= low.value <= v + slack
  {
    CompactReads(v);
    CompactReads(w);
    CompactValueIsClose(v, w);
  }
}
