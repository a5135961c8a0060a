/** String helpers the diagnostics templates render with: joining with a
    separator (Swift's `joined(separator:)`) and decimal text of integers. */
module Text {

  /** `parts` with `sep` between each two consecutive parts and nowhere else. */
  function Join(parts: seq<string>, sep: string): (r: string)
    ensures |parts| == 0 ==> r == ""
    ensures |parts| > 0 ==> parts[0] <= r
  {
    if |parts| == 0 then ""
    else if |parts| == 1 then parts[0]
    else parts[0] + sep + Join(parts[1..], sep)
  }

  /** Where part `i` starts in `Join(parts, sep)`: the lengths of the parts
      before it plus one separator after each of them. */
  function Offset(parts: seq<string>, sep: string, i: nat): nat
    requires i <= |parts|
  {
    if i == 0 then 0 else Offset(parts, sep, i - 1) + |parts[i - 1]| + |sep|
  }

  /** Appending a part at the end adds exactly one separator and that part. */
  lemma {:induction false} JoinSnoc(parts: seq<string>, x: string, sep: string)
    requires |parts| > 0
    ensures Join(parts + [x], sep) == Join(parts, sep) + sep + x
  {
    if |parts| == 1 {
      assert parts + [x] == [parts[0], x];
    } else {
      assert (parts + [x])[1..] == parts[1..] + [x];
      JoinSnoc(parts[1..], x, sep);
    }
  }

  /** Offsets depend only on the parts before the position asked for. */
  lemma {:induction false} OffsetPrefix(parts: seq<string>, more: seq<string>, sep: string, i: nat)
    requires i <= |parts|
    ensures Offset(parts + more, sep, i) == Offset(parts, sep, i)
  {
    if i > 0 {
      OffsetPrefix(parts, more, sep, i - 1);
      assert (parts + more)[i - 1] == parts[i - 1];
    }
  }

  /** The length of a joined string: every part plus one separator between
      each two consecutive parts. */
  lemma {:induction false} JoinLength(parts: seq<string>, sep: string)
    requires |parts| > 0
    ensures |Join(parts, sep)| == Offset(parts, sep, |parts| - 1) + |parts[|parts| - 1]|
  {
    if |parts| > 1 {
      var init := parts[..|parts| - 1];
      assert parts == init + [parts[|parts| - 1]];
      JoinLength(init, sep);
      JoinSnoc(init, parts[|parts| - 1], sep);
      OffsetPrefix(init, [parts[|parts| - 1]], sep, |init| - 1);
    }
  }

  /** Part `i` of a joined string sits at `Offset(parts, sep, i)`. */
  lemma {:induction false} JoinPartAt(parts: seq<string>, sep: string, i: nat)
    requires i < |parts|
    ensures Offset(parts, sep, i) + |parts[i]| <= |Join(parts, sep)|
    ensures Join(parts, sep)[Offset(parts, sep, i)..Offset(parts, sep, i) + |parts[i]|] == parts[i]
  {
    var init, last := parts[..|parts| - 1], parts[|parts| - 1];
    assert parts == init + [last];
    if |parts| == 1 {
    } else {
      JoinSnoc(init, last, sep);
      JoinLength(init, sep);
      var j, ji := Join(parts, sep), Join(init, sep);
      OffsetPrefix(init, [last], sep, i);
      if i < |init| {
        JoinPartAt(init, sep, i);
        assert j[..|ji|] == ji;
        assert j[Offset(parts, sep, i)..Offset(parts, sep, i) + |parts[i]|]
            == ji[Offset(init, sep, i)..Offset(init, sep, i) + |init[i]|];
      } else {
        OffsetPrefix(init, [last], sep, i - 1);
        assert Offset(parts, sep, i) == |ji| + |sep|;
      }
    }
  }

  /** Exactly one separator lies between part `i` and part `i + 1`. */
  lemma {:induction false} JoinSeparatorAt(parts: seq<string>, sep: string, i: nat)
    requires i + 1 < |parts|
    ensures Offset(parts, sep, i + 1) <= |Join(parts, sep)|
    ensures Join(parts, sep)[Offset(parts, sep, i) + |parts[i]|..Offset(parts, sep, i + 1)] == sep
  {
    var init, last := parts[..|parts| - 1], parts[|parts| - 1];
    assert parts == init + [last];
    JoinSnoc(init, last, sep);
    JoinLength(init, sep);
    var j, ji := Join(parts, sep), Join(init, sep);
    OffsetPrefix(init, [last], sep, i);
    OffsetPrefix(init, [last], sep, i + 1);
    assert parts[i] == init[i];
    if i + 1 < |init| {
      JoinSeparatorAt(init, sep, i);
      assert j[..|ji|] == ji;
      assert j[Offset(parts, sep, i) + |parts[i]|..Offset(parts, sep, i + 1)]
          == ji[Offset(init, sep, i) + |init[i]|..Offset(init, sep, i + 1)];
    } else {
      assert Offset(parts, sep, i) + |parts[i]| == |ji|;
    }
  }

  predicate IsDigit(c: char)
  {
    '0' <= c <= '9'
  }

  /** The decimal digit character for `d`. */
  function DigitChar(d: nat): (c: char)
    requires d < 10
    ensures IsDigit(c) && c as int - '0' as int == d
  {
    ('0' as int + d) as char
  }

  /** Decimal text of a natural number, most significant digit first, with no
      leading zero. */
  function NatToString(n: nat): (s: string)
    ensures |s| > 0 && forall k :: 0 <= k < |s| ==> IsDigit(s[k])
    ensures |s| > 1 ==> s[0] != '0'
  {
    if n < 10 then [DigitChar(n)] else NatToString(n / 10) + [DigitChar(n % 10)]
  }

  /** Decimal text of an integer, as Swift prints an `Int`: a minus sign
      before the magnitude when negative. */
  function IntToString(i: int): (s: string)
    ensures |s| > 0
    ensures s[0] == '-' <==> i < 0
    ensures forall k :: (if i < 0 then 1 else 0) <= k < |s| ==> IsDigit(s[k])
  {
    if i < 0 then "-" + NatToString(-i) else NatToString(i)
  }

  /** The value of a string of decimal digits. */
  function DigitsValue(s: string): nat
    requires forall k :: 0 <= k < |s| ==> IsDigit(s[k])
  {
    if s == [] then 0
    else
      var last := s[|s| - 1];
      assert IsDigit(last);
      DigitsValue(s[..|s| - 1]) * 10 + (last as int - '0' as int)
  }

  /** The value of a decimal integer text with an optional leading minus. */
  function ParseInt(s: string): int
    requires |s| > 0
    requires s[0] == '-' ==> |s| > 1 && forall k :: 1 <= k < |s| ==> IsDigit(s[k])
    requires s[0] != '-' ==> forall k :: 0 <= k < |s| ==> IsDigit(s[k])
  {
    if s[0] == '-' then -(DigitsValue(s[1..]) as int) else DigitsValue(s)
  }

  lemma {:induction false} NatToStringRoundTrip(n: nat)
    ensures DigitsValue(NatToString(n)) == n
  {
    if n >= 10 {
      var s := NatToString(n);
      assert s[..|s| - 1] == NatToString(n / 10);
      NatToStringRoundTrip(n / 10);
    }
  }

  /** Reading back the decimal text of an integer gives the integer. */
  lemma IntToStringRoundTrip(i: int)
    ensures var s := IntToString(i);
      |s| > 0 &&
      (s[0] == '-' ==> |s| > 1 && forall k :: 1 <= k < |s| ==> IsDigit(s[k])) &&
      (s[0] != '-' ==> forall k :: 0 <= k < |s| ==> IsDigit(s[k])) &&
      ParseInt(s) == i
  {
    if i < 0 {
      assert IntToString(i)[1..] == NatToString(-i);
      NatToStringRoundTrip(-i);
    } else {
      NatToStringRoundTrip(i);
    }
  }
}
