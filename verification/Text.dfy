/** Strings as the services build them: decimal numbers, stripping, bounding and joining. */
module Text {

  /******* Decimal numbers, as `f"{int(x)}"` prints them *******/

  function Digit(d: nat): (c: char)
    requires d < 10
  {
    "0123456789"[d]
  }

  function Digits(n: nat): string {
    if n < 10 then [Digit(n)] else Digits(n / 10) + [Digit(n % 10)]
  }

  function Decimal(i: int): string {
    if i < 0 then "-" + Digits(-i) else Digits(i)
  }

  lemma {:induction false} DigitsInjective(m: nat, n: nat)
    requires Digits(m) == Digits(n)
    ensures m == n
  {
    var a, b := Digits(m), Digits(n);
    assert a[|a| - 1] == b[|b| - 1];
    if m >= 10 && n >= 10 {
      assert a[..|a| - 1] == Digits(m / 10) && b[..|b| - 1] == Digits(n / 10);
      DigitsInjective(m / 10, n / 10);
    } else {
      DigitsNonempty(m / 10);
      DigitsNonempty(n / 10);
    }
  }

  lemma DigitsNonempty(n: nat)
    ensures |Digits(n)| >= 1
  {
  }

  /** Decimal numbers consist of digits, with a minus sign only in front. */
  lemma {:induction false} DigitsAreDigits(n: nat, c: char)
    requires c in Digits(n)
    ensures '0' <= c <= '9'
  {
    if n >= 10 && c in Digits(n / 10) {
      DigitsAreDigits(n / 10, c);
    }
  }

  lemma DecimalInjective(i: int, j: int)
    requires Decimal(i) == Decimal(j)
    ensures i == j
  {
    FirstDigit(if i < 0 then -i else i);
    FirstDigit(if j < 0 then -j else j);
    if i < 0 && j < 0 {
      assert Decimal(i)[1..] == Digits(-i) && Decimal(j)[1..] == Digits(-j);
      DigitsInjective(-i, -j);
    } else if i >= 0 && j >= 0 {
      DigitsInjective(i, j);
    }
  }

  lemma FirstDigit(n: nat)
    ensures Digits(n) != [] && Digits(n)[0] != '-'
  {
    DigitsNonempty(n);
    DigitsAreDigits(n, Digits(n)[0]);
  }

  lemma DecimalHasNoColon(i: int)
    ensures ':' !in Decimal(i)
  {
    if ':' in Decimal(i) {
      DigitsAreDigits(if i < 0 then -i else i, ':');
    }
  }

  /** The number a decimal text stands for, read from the left. */
  function Value(s: string): int {
    if s == "" then 0 else 10 * Value(s[..|s| - 1]) + (s[|s| - 1] as int - 48)
  }

  lemma {:induction false} DigitsReadBack(n: nat)
    ensures Value(Digits(n)) == n
  {
    var s := Digits(n);
    assert s[|s| - 1] == Digit(n % 10);
    if n >= 10 {
      DigitsReadBack(n / 10);
      assert s[..|s| - 1] == Digits(n / 10);
    } else {
      assert s[..|s| - 1] == "";
    }
  }

  /** The decimal text of a number reads back as the number. */
  lemma DecimalReadsBack(i: int)
    ensures i >= 0 ==> Value(Decimal(i)) == i
    ensures i < 0 ==> Decimal(i)[0] == '-' && Value(Decimal(i)[1..]) == -i
  {
    DigitsReadBack(if i < 0 then -i else i);
  }

  /******* Separators *******/

  /** Two strings split at the first separator when the left parts do not contain it. */
  lemma SplitAtSeparator(sep: char, a: string, x: string, b: string, y: string)
    requires sep !in a && sep !in b
    requires a + [sep] + x == b + [sep] + y
    ensures a == b && x == y
  {
    var s, t := a + [sep] + x, b + [sep] + y;
    assert s[|a|] == sep && t[|b|] == sep;
    assert forall i :: 0 <= i < |a| ==> s[i] != sep;
    assert forall i :: 0 <= i < |b| ==> t[i] != sep;
    assert |a| == |b|;
    assert s[..|a|] == a && t[..|b|] == b;
    assert s[|a| + 1..] == x && t[|b| + 1..] == y;
  }

  /** Two strings split before tails of one length, whatever the heads contain. */
  lemma SplitBeforeTail(sep: char, a: string, x: string, b: string, y: string)
    requires |x| == |y|
    requires a + [sep] + x == b + [sep] + y
    ensures a == b && x == y
  {
    var s, t := a + [sep] + x, b + [sep] + y;
    assert |a| == |b|;
    assert s[..|a|] == a && t[..|b|] == b;
    assert s[|a| + 1..] == x && t[|b| + 1..] == y;
  }

  /******* `str.strip` and the services' `_bounded` *******/

  /** The characters Python's `str.strip` removes. */
  predicate Space(c: char) {
    c == ' ' || '\t' <= c <= '\r' || '\U{1c}' <= c <= '\U{1f}' || c == '\U{85}' || c == '\U{a0}' || c == '\U{1680}'
    || '\U{2000}' <= c <= '\U{200a}' || c == '\U{2028}' || c == '\U{2029}' || c == '\U{202f}' || c == '\U{205f}'
    || c == '\U{3000}'
  }

  function LStrip(s: string): (r: string)
    ensures |r| <= |s| && (r == [] || !Space(r[0]))
  {
    if s != [] && Space(s[0]) then LStrip(s[1..]) else s
  }

  function RStrip(s: string): (r: string)
    ensures r <= s && (r == [] || !Space(r[|r| - 1]))
  {
    if s != [] && Space(s[|s| - 1]) then RStrip(s[..|s| - 1]) else s
  }

  function Strip(s: string): (r: string)
    ensures |r| <= |s| && Stripped(r)
  {
    RStrip(LStrip(s))
  }

  predicate Stripped(s: string) {
    s == [] || (!Space(s[0]) && !Space(s[|s| - 1]))
  }

  lemma StripStripped(s: string)
    requires Stripped(s)
    ensures Strip(s) == s
  {
  }

  ghost predicate AllSpace(s: string) {
    forall c :: c in s ==> Space(c)
  }

  lemma {:induction false} RStripCuts(s: string)
    ensures AllSpace(s[|RStrip(s)|..])
  {
    if s != [] && Space(s[|s| - 1]) {
      var r := RStrip(s);
      RStripCuts(s[..|s| - 1]);
      assert r == RStrip(s[..|s| - 1]);
      assert s[|r|..] == s[..|s| - 1][|r|..] + [s[|s| - 1]];
    }
  }

  lemma {:induction false} LStripCuts(s: string)
    ensures s[|s| - |LStrip(s)|..] == LStrip(s) && AllSpace(s[..|s| - |LStrip(s)|])
  {
    if s != [] && Space(s[0]) {
      var n := |s| - |LStrip(s)|;
      LStripCuts(s[1..]);
      assert s[..n] == [s[0]] + s[1..][..n - 1];
    }
  }

  /** Stripping cuts off white space on both sides, all of it, and nothing else. */
  lemma StripIs(s: string) returns (left: string, right: string)
    ensures s == left + Strip(s) + right && AllSpace(left) && AllSpace(right) && Stripped(Strip(s))
  {
    var middle := LStrip(s);
    LStripCuts(s);
    RStripCuts(middle);
    left, right := s[..|s| - |middle|], middle[|Strip(s)|..];
    assert middle == Strip(s) + right;
    assert s == left + middle;
  }

  /** White space by code point, as Python's `str.isspace` has it. */
  lemma SpacesAre(c: char)
    ensures Space(c) <==>
      c as int in {9, 10, 11, 12, 13, 28, 29, 30, 31, 32, 133, 160, 5760, 8192, 8193, 8194, 8195, 8196, 8197, 8198,
                   8199, 8200, 8201, 8202, 8232, 8233, 8239, 8287, 12288}
  {
  }

  lemma StripIdempotent(s: string)
    ensures Strip(Strip(s)) == Strip(s)
  {
    StripStripped(Strip(s));
  }

  const ELLIPSIS: char := '\U{2026}'

  /** `_bounded`: strip, and cut with an ellipsis when too long. */
  function Bounded(value: string, limit: int): string {
    var text := Strip(value);
    if |text| <= limit then text
    else
      var cut := if limit - 1 < 0 then 0 else limit - 1;
      RStrip(text[..if cut <= |text| then cut else |text|]) + [ELLIPSIS]
  }

  /** A text that fits is kept; another one is cut before the limit, without white space before the ellipsis. */
  lemma BoundedIs(value: string, limit: int)
    requires limit >= 1
    ensures var text := Strip(value);
      if |text| <= limit then Bounded(value, limit) == text
      else exists kept: string ::
        && Bounded(value, limit) == kept + "\U{2026}" && kept <= text[..limit - 1]
        && AllSpace(text[|kept|..limit - 1]) && (kept == "" || !Space(kept[|kept| - 1]))
  {
    var text := Strip(value);
    if |text| > limit {
      var kept := RStrip(text[..limit - 1]);
      RStripCuts(text[..limit - 1]);
      assert text[..limit - 1][|kept|..] == text[|kept|..limit - 1];
      assert Bounded(value, limit) == kept + "\U{2026}";
    }
  }

  /** `_bounded` is idempotent for every limit, and respects every positive limit. */
  lemma BoundedIdempotent(value: string, limit: int)
    ensures Bounded(Bounded(value, limit), limit) == Bounded(value, limit)
    ensures limit >= 1 ==> |Bounded(value, limit)| <= limit
  {
    var text := Strip(value);
    var once := Bounded(value, limit);
    if |text| <= limit {
      StripStripped(text);
    } else {
      assert Stripped(once);
      StripStripped(once);
      if limit < 1 {
        assert text[..0] == [] && once == [ELLIPSIS];
        assert once[..0] == [];
      }
    }
  }

  /******* "\0".join *******/

  function Join(sep: char, parts: seq<string>): string {
    if parts == [] then ""
    else if |parts| == 1 then parts[0]
    else parts[0] + [sep] + Join(sep, parts[1..])
  }

  lemma {:induction false} JoinAppend(sep: char, parts: seq<string>, last: string)
    requires parts != []
    ensures Join(sep, parts + [last]) == Join(sep, parts) + [sep] + last
  {
    if |parts| == 1 {
      assert (parts + [last])[1..] == [last];
    } else {
      JoinAppend(sep, parts[1..], last);
      assert (parts + [last])[1..] == parts[1..] + [last];
    }
  }

  ghost predicate NoneContain(sep: char, parts: seq<string>) {
    forall i :: 0 <= i < |parts| ==> sep !in parts[i]
  }

  lemma JoinContainsSeparator(sep: char, parts: seq<string>)
    requires |parts| >= 2
    ensures sep in Join(sep, parts)
  {
    assert Join(sep, parts)[|parts[0]|] == sep;
  }

  /** Joining is injective, even between lists of different lengths, when no part contains the separator. */
  lemma {:induction false} JoinInjective(sep: char, a: seq<string>, b: seq<string>)
    requires a != [] && b != [] && NoneContain(sep, a) && NoneContain(sep, b)
    requires Join(sep, a) == Join(sep, b)
    ensures a == b
  {
    if |a| == 1 && |b| == 1 {
    } else if |a| == 1 {
      JoinContainsSeparator(sep, b);
    } else if |b| == 1 {
      JoinContainsSeparator(sep, a);
    } else {
      SplitAtSeparator(sep, a[0], Join(sep, a[1..]), b[0], Join(sep, b[1..]));
      JoinInjective(sep, a[1..], b[1..]);
    }
  }

  /******* Counting separators *******/

  function Count(sep: char, s: string): nat {
    if s == "" then 0 else (if s[0] == sep then 1 else 0) + Count(sep, s[1..])
  }

  lemma {:induction false} CountAppend(sep: char, a: string, b: string)
    ensures Count(sep, a + b) == Count(sep, a) + Count(sep, b)
  {
    if a == "" {
      assert a + b == b;
    } else {
      CountAppend(sep, a[1..], b);
      assert (a + b)[1..] == a[1..] + b;
    }
  }

  lemma {:induction false} CountIsZero(sep: char, s: string)
    ensures Count(sep, s) == 0 <==> sep !in s
  {
    if s != "" {
      CountIsZero(sep, s[1..]);
      assert sep in s <==> s[0] == sep || sep in s[1..];
    }
  }

  function CountAll(sep: char, parts: seq<string>): nat {
    if parts == [] then 0 else Count(sep, parts[0]) + CountAll(sep, parts[1..])
  }

  lemma {:induction false} CountAllIsZero(sep: char, parts: seq<string>)
    ensures CountAll(sep, parts) == 0 <==> NoneContain(sep, parts)
  {
    if parts != [] {
      CountAllIsZero(sep, parts[1..]);
      CountIsZero(sep, parts[0]);
      assert NoneContain(sep, parts) <==> sep !in parts[0] && NoneContain(sep, parts[1..]) by {
        assert forall i :: 0 < i < |parts| ==> parts[i] == parts[1..][i - 1];
      }
    }
  }

  /** A joined text has the separators of its parts and one between each two of them. */
  lemma {:induction false} CountJoin(sep: char, parts: seq<string>)
    requires parts != []
    ensures Count(sep, Join(sep, parts)) == |parts| - 1 + CountAll(sep, parts)
  {
    if |parts| > 1 {
      CountJoin(sep, parts[1..]);
      CountAppend(sep, parts[0] + [sep], Join(sep, parts[1..]));
      CountAppend(sep, parts[0], [sep]);
      assert [sep][1..] == "";
    }
  }
}
