/** The string formatting the package relies on: decimal numbers padded to a
    width ('{n:05d}', '%Y'), timestamps as '%Y%m%d%H%M%S', space replacement,
    joining the non-empty parts of a name, and the suffix of a path. Each
    formatter comes with the parser that inverts it. */
module Text {
  import opened Common

  predicate IsDigit(c: char) {
    '0' <= c <= '9'
  }

  predicate AllDigits(s: string) {
    forall i :: 0 <= i < |s| ==> IsDigit(s[i])
  }

  function DigitChar(d: nat): (c: char)
    requires d < 10
    ensures IsDigit(c)
  {
    ('0' as int + d) as char
  }

  function DigitValue(c: char): nat
    requires IsDigit(c)
  {
    c as int - '0' as int
  }

  function Pow10(k: nat): (p: nat)
    ensures p >= 1
  {
    if k == 0 then 1 else 10 * Pow10(k - 1)
  }

  /** The decimal representation of n, without leading zeros. */
  function Digits(n: nat): (r: string)
    ensures 1 <= |r| && AllDigits(r)
    ensures r[0] == '0' <==> n == 0
    decreases n
  {
    if n < 10 then [DigitChar(n)] else Digits(n / 10) + [DigitChar(n % 10)]
  }

  /** The number a string of decimal digits denotes. */
  function Value(s: string): nat
    requires AllDigits(s)
  {
    if s == [] then 0 else 10 * Value(s[..|s| - 1]) + DigitValue(s[|s| - 1])
  }

  lemma {:induction false} ValueOfDigits(n: nat)
    ensures Value(Digits(n)) == n
    decreases n
  {
    if n >= 10 {
      var d := Digits(n / 10);
      assert (d + [DigitChar(n % 10)])[..|d|] == d;
      ValueOfDigits(n / 10);
    }
  }

  /** A number below 10^k has at most k digits. */
  lemma {:induction false} DigitsLength(n: nat, k: nat)
    requires 1 <= k && n < Pow10(k)
    ensures |Digits(n)| <= k
    decreases k
  {
    if n >= 10 {
      DigitsLength(n / 10, k - 1);
    }
  }

  function Zeros(k: nat): (z: string)
    ensures |z| == k && AllDigits(z)
  {
    seq(k, _ => '0')
  }

  lemma {:induction false} ValueOfZeros(k: nat)
    ensures Value(Zeros(k)) == 0
  {
    if k > 0 {
      assert Zeros(k)[..k - 1] == Zeros(k - 1);
      ValueOfZeros(k - 1);
    }
  }

  lemma {:induction false} ValueIgnoresLeadingZeros(k: nat, s: string)
    requires AllDigits(s)
    ensures Value(Zeros(k) + s) == Value(s)
    decreases |s|
  {
    var t := Zeros(k) + s;
    if s == [] {
      assert t == Zeros(k);
      ValueOfZeros(k);
    } else {
      assert t[..|t| - 1] == Zeros(k) + s[..|s| - 1];
      ValueIgnoresLeadingZeros(k, s[..|s| - 1]);
    }
  }

  /** n in decimal, left-padded with '0' to at least `width` characters, as
      Python's '{n:0<width>d}' and strftime's '%Y' produce for n >= 0. */
  function ZeroPad(n: nat, width: nat): (r: string)
    ensures AllDigits(r) && |r| >= width && |r| >= |Digits(n)|
  {
    var d := Digits(n);
    if |d| < width then Zeros(width - |d|) + d else d
  }

  /** Numbers below 10^width fill the width exactly. */
  lemma ZeroPadLength(n: nat, width: nat)
    requires 1 <= width && n < Pow10(width)
    ensures |ZeroPad(n, width)| == width
  {
    DigitsLength(n, width);
  }

  /** The non-negative number denoted by a non-empty string of digits. */
  function ParseNat(s: string): (r: Option<int>)
    ensures r.Some? <==> s != [] && AllDigits(s)
    ensures r.Some? ==> r.value >= 0
  {
    if s != [] && AllDigits(s) then Some(Value(s)) else None
  }

  lemma ParseZeroPad(n: nat, width: nat)
    ensures ParseNat(ZeroPad(n, width)) == Some(n)
  {
    var d := Digits(n);
    ValueOfDigits(n);
    if ZeroPad(n, width) != d {
      ValueIgnoresLeadingZeros(width - |d|, d);
    }
  }

  /** Python's '{n:05d}': the sign counts towards the width of five. */
  function Format05d(n: int): (r: string)
    ensures n >= 0 ==> AllDigits(r)
    ensures n < 0 ==> |r| >= 2 && r[0] == '-' && AllDigits(r[1..])
  {
    if n >= 0 then ZeroPad(n, 5) else "-" + ZeroPad(-n, 4)
  }

  /** Levels from -9999 to 99999 get labels of exactly five characters. */
  lemma Format05dLength(n: int)
    requires -10000 < n < 100000
    ensures |Format05d(n)| == 5
  {
    if n >= 0 {
      ZeroPadLength(n, 5);
    } else {
      ZeroPadLength(-n, 4);
    }
  }

  /** Inverse of Format05d: an optional '-' followed by digits. */
  function ParseInt(s: string): Option<int> {
    var negative := s != [] && s[0] == '-';
    var magnitude := ParseNat(if negative then s[1..] else s);
    if magnitude.None? then None
    else
      Some(if negative then -magnitude.value else magnitude.value)
  }

  lemma ParseFormat05d(n: int)
    ensures ParseInt(Format05d(n)) == Some(n)
  {
    if n >= 0 {
      ParseFormat05dNonNegative(n);
    } else {
      ParseFormat05dNegative(n);
    }
  }

  lemma ParseFormat05dNonNegative(n: int)
    requires n >= 0
    ensures ParseInt(Format05d(n)) == Some(n)
  {
    var s := Format05d(n);
    ParseZeroPad(n, 5);
    assert s[0] != '-';
    assert ParseNat(s).Some? && ParseNat(s).value == n;
  }

  lemma ParseFormat05dNegative(n: int)
    requires n < 0
    ensures ParseInt(Format05d(n)) == Some(n)
  {
    var digits := ZeroPad(-n, 4);
    assert Format05d(n) == "-" + digits;
    ParseZeroPad(-n, 4);
    ParseNegative(digits, -n);
  }

  /** '-' in front of digits that read as m reads as -m. */
  lemma ParseNegative(digits: string, m: int)
    requires ParseNat(digits) == Some(m)
    ensures ParseInt("-" + digits) == Some(-m)
  {
    var s := "-" + digits;
    assert s[1..] == digits;
    ParseSigned(s);
  }

  /** A leading '-' negates the number the rest denotes. */
  lemma ParseSigned(s: string)
    requires s != [] && s[0] == '-'
    ensures ParseInt(s) == if ParseNat(s[1..]).Some? then Some(-ParseNat(s[1..]).value) else None
  {
  }

  /** Different levels never share a '{n:05d}' label. */
  lemma Format05dInjective(a: int, b: int)
    ensures Format05d(a) == Format05d(b) ==> a == b
  {
    ParseFormat05d(a);
    ParseFormat05d(b);
  }

  /** Numbers written one after another, each padded to its own width. */
  function FormatFields(values: seq<nat>, widths: seq<nat>): string
    requires |values| == |widths|
  {
    if values == [] then "" else ZeroPad(values[0], widths[0]) + FormatFields(values[1..], widths[1..])
  }

  lemma {:induction false} FormatFieldsDigits(values: seq<nat>, widths: seq<nat>)
    requires |values| == |widths|
    ensures AllDigits(FormatFields(values, widths))
  {
    if values != [] {
      FormatFieldsDigits(values[1..], widths[1..]);
    }
  }

  /** Inverse of FormatFields: cut the string at the widths and read each piece. */
  function ParseFields(s: string, widths: seq<nat>): (r: Option<seq<int>>)
    ensures r.Some? ==> |r.value| == |widths| && forall i :: 0 <= i < |widths| ==> r.value[i] >= 0
  {
    if widths == [] then (if s == [] then Some([]) else None)
    else if |s| < widths[0] then None
    else
      match (ParseNat(s[..widths[0]]), ParseFields(s[widths[0]..], widths[1..]))
      case (Some(v), Some(vs)) => Some([v] + vs)
      case _ => None
  }

  /** Fields that fit their widths are read back unchanged. */
  lemma {:induction false} ParseFormatFields(values: seq<nat>, widths: seq<nat>)
    requires |values| == |widths|
    requires forall i :: 0 <= i < |widths| ==> 1 <= widths[i] && values[i] < Pow10(widths[i])
    ensures ParseFields(FormatFields(values, widths), widths) == Some(values)
  {
    if values != [] {
      var head := ZeroPad(values[0], widths[0]);
      var tail := FormatFields(values[1..], widths[1..]);
      assert FormatFields(values, widths) == head + tail;
      assert |head| == widths[0] by { ZeroPadLength(values[0], widths[0]); }
      assert ParseNat(head) == Some(values[0]) by { ParseZeroPad(values[0], widths[0]); }
      assert ParseFields(tail, widths[1..]) == Some(values[1..]) by {
        ParseFormatFields(values[1..], widths[1..]);
      }
      assert ParseFields(head + tail, widths) == Some([values[0]] + values[1..]) by {
        ParseFieldsCons(head, tail, widths, values[0], values[1..]);
      }
      assert [values[0]] + values[1..] == values;
    }
  }

  /** Reading one more field in front of already readable ones. */
  lemma ParseFieldsCons(head: string, tail: string, widths: seq<nat>, v: nat, vs: seq<nat>)
    requires widths != [] && |head| == widths[0]
    requires ParseNat(head) == Some(v)
    requires ParseFields(tail, widths[1..]) == Some(vs)
    ensures ParseFields(head + tail, widths) == Some([v] + vs)
  {
    assert (head + tail)[..widths[0]] == head;
    assert (head + tail)[widths[0]..] == tail;
  }

  const TimestampWidths: seq<nat> := [4, 2, 2, 2, 2, 2]

  function TimestampFields(d: DateTime): seq<nat> {
    [d.year, d.month, d.day, d.hour, d.minute, d.second]
  }

  /** strftime('%Y%m%d%H%M%S'). */
  function Strftime(d: DateTime): string {
    FormatFields(TimestampFields(d), TimestampWidths)
  }

  /** Inverse of Strftime on fourteen digits. */
  function ParseTimestamp(s: string): Option<DateTime> {
    match ParseFields(s, TimestampWidths)
    case Some(v) => Some(DateTime(v[0], v[1], v[2], v[3], v[4], v[5]))
    case None => None
  }

  lemma ParseStrftime(d: DateTime)
    requires d.Valid()
    ensures ParseTimestamp(Strftime(d)) == Some(d)
  {
    ParseFormatFields(TimestampFields(d), TimestampWidths);
  }

  function Total(widths: seq<nat>): nat {
    if widths == [] then 0 else widths[0] + Total(widths[1..])
  }

  /** Fields that fit their widths take exactly the sum of the widths. */
  lemma {:induction false} FormatFieldsLength(values: seq<nat>, widths: seq<nat>)
    requires |values| == |widths|
    requires forall i :: 0 <= i < |widths| ==> 1 <= widths[i] && values[i] < Pow10(widths[i])
    ensures |FormatFields(values, widths)| == Total(widths)
  {
    if values != [] {
      assert |ZeroPad(values[0], widths[0])| == widths[0] by {
        ZeroPadLength(values[0], widths[0]);
      }
      FormatFieldsLength(values[1..], widths[1..]);
    }
  }

  /** Valid times are written with exactly fourteen digits. */
  lemma StrftimeLength(d: DateTime)
    requires d.Valid()
    ensures |Strftime(d)| == 14
  {
    FormatFieldsLength(TimestampFields(d), TimestampWidths);
  }

  /** Distinct valid times never share a timestamp label. */
  lemma StrftimeInjective(a: DateTime, b: DateTime)
    requires a.Valid() && b.Valid()
    ensures Strftime(a) == Strftime(b) ==> a == b
  {
    ParseStrftime(a);
    ParseStrftime(b);
  }

  /** Strings that share their beginning and their end differ exactly
      where their middles differ. */
  lemma SameEndsSameMiddle(front: string, x: string, y: string, back: string)
    ensures front + x + back == front + y + back ==> x == y
  {
    if front + x + back == front + y + back {
      assert |x| == |y|;
      assert x == (front + x + back)[|front|..|front| + |x|];
      assert y == (front + y + back)[|front|..|front| + |y|];
    }
  }

  /** str.replace(' ', '_'). */
  function ReplaceSpaces(s: string): (r: string)
    ensures |r| == |s| && ' ' !in r
    ensures forall i :: 0 <= i < |s| && s[i] != ' ' ==> r[i] == s[i]
    ensures forall i :: 0 <= i < |s| && s[i] == ' ' ==> r[i] == '_'
  {
    if s == [] then []
    else [if s[0] == ' ' then '_' else s[0]] + ReplaceSpaces(s[1..])
  }

  lemma {:induction false} ReplaceSpacesAppend(a: string, b: string)
    ensures ReplaceSpaces(a + b) == ReplaceSpaces(a) + ReplaceSpaces(b)
  {
    if a != [] {
      assert (a + b)[1..] == a[1..] + b;
      ReplaceSpacesAppend(a[1..], b);
    }
  }

  /** Text without spaces is left as it is. */
  lemma ReplaceSpacesNoSpace(s: string)
    requires ' ' !in s
    ensures ReplaceSpaces(s) == s
  {
    assert forall i :: 0 <= i < |s| ==> ReplaceSpaces(s)[i] == s[i];
  }

  /** sep.join(filter(None, parts)): None and '' are both dropped. */
  function JoinPresent(parts: seq<Option<string>>, sep: string): string {
    JoinStrings(NonEmptyParts(parts), sep)
  }

  /** The non-empty strings among `parts`, in order. */
  function NonEmptyParts(parts: seq<Option<string>>): (r: seq<string>)
    ensures forall x :: x in r <==> x != "" && Some(x) in parts
  {
    if parts == [] then []
    else
      (match parts[0] case Some(s) => if s != "" then [s] else [] case None => [])
      + NonEmptyParts(parts[1..])
  }

  function JoinStrings(xs: seq<string>, sep: string): string {
    if xs == [] then ""
    else if |xs| == 1 then xs[0]
    else xs[0] + sep + JoinStrings(xs[1..], sep)
  }

  /** Four fields joined, spelled out left to right. */
  lemma JoinFour(a: string, b: string, c: string, d: string, sep: string)
    ensures JoinStrings([a, b, c, d], sep) == a + sep + b + sep + c + sep + d
  {
    var xs := [a, b, c, d];
    assert xs[1..] == [b, c, d] && xs[1..][1..] == [c, d] && xs[1..][1..][1..] == [d];
    var tail := c + sep + d;
    assert JoinStrings([c, d], sep) == tail;
    assert JoinStrings([b, c, d], sep) == b + sep + tail;
    assert JoinStrings(xs, sep) == a + sep + (b + sep + tail);
    calc {
      a + sep + (b + sep + tail);
      { AppendAssociates(a + sep, b + sep, tail); }
      a + sep + (b + sep) + tail;
      { AppendAssociates(a + sep, b, sep); }
      a + sep + b + sep + tail;
      { AppendAssociates(a + sep + b + sep, c + sep, d); }
      a + sep + b + sep + (c + sep) + d;
      { AppendAssociates(a + sep + b + sep, c, sep); }
      a + sep + b + sep + c + sep + d;
    }
  }

  /** str.lower on ASCII: capitals become small letters, everything else is kept. */
  function LowerAscii(s: string): (r: string)
    ensures |r| == |s|
    ensures forall i :: 0 <= i < |s| && 'A' <= s[i] <= 'Z' ==> r[i] == (s[i] as int - 'A' as int + 'a' as int) as char
    ensures forall i :: 0 <= i < |s| && !('A' <= s[i] <= 'Z') ==> r[i] == s[i]
  {
    if s == [] then []
    else [if 'A' <= s[0] <= 'Z' then (s[0] as int + 32) as char else s[0]] + LowerAscii(s[1..])
  }

  /** The index of the last '.' in s, as str.rfind does (-1 when absent). */
  function RFindDot(s: string): (i: int)
    ensures -1 <= i < |s|
    ensures i >= 0 ==> s[i] == '.'
    ensures forall j :: i < j < |s| ==> s[j] != '.'
  {
    if s == [] then -1
    else if s[|s| - 1] == '.' then |s| - 1
    else RFindDot(s[..|s| - 1])
  }

  /** PurePath.suffix of a file name: from its last '.', provided that dot is
      neither the first nor the last character; '' otherwise. */
  function Suffix(name: string): (r: string)
    ensures r != "" ==> 2 <= |r| < |name| && r == name[|name| - |r|..] && r[0] == '.'
    ensures r != "" ==> forall j :: 1 <= j < |r| ==> r[j] != '.'
    ensures r == "" ==> forall i :: 0 < i < |name| - 1 ==> name[i] != '.' || exists j :: i < j < |name| && name[j] == '.'
  {
    var i := RFindDot(name);
    if 0 < i < |name| - 1 then name[i..] else ""
  }
}
