/**
 * The string operations of the JavaScript runtime that the application
 * relies on: comparison, `join`/`split`, number printing and `parseFloat`.
 */
module Text {
  import opened Wrappers
  import opened Seqs

  // ---------------------------------------------------------------- ordering

  /** JavaScript's `a < b` on strings: code-unit lexicographic order. */
  predicate LexLess(a: string, b: string)
    decreases |a|
  {
    if b == [] then false
    else if a == [] then true
    else if a[0] != b[0] then a[0] < b[0]
    else LexLess(a[1..], b[1..])
  }

  /** JavaScript's `a <= b` on strings, which is defined as `!(b < a)`. */
  predicate LexLe(a: string, b: string) {
    !LexLess(b, a)
  }

  lemma {:induction false} LexLessIrreflexive(a: string)
    ensures !LexLess(a, a)
    decreases |a|
  {
    if a != [] {
      LexLessIrreflexive(a[1..]);
    }
  }

  lemma {:induction false} LexLessTransitive(a: string, b: string, c: string)
    requires LexLess(a, b) && LexLess(b, c)
    ensures LexLess(a, c)
    decreases |a|
  {
    if a != [] && a[0] == b[0] && b[0] == c[0] {
      LexLessTransitive(a[1..], b[1..], c[1..]);
    }
  }

  /** Any two distinct strings are ordered one way or the other. */
  lemma {:induction false} LexLessTotal(a: string, b: string)
    requires a != b
    ensures LexLess(a, b) || LexLess(b, a)
    decreases |a|
  {
    if a != [] && b != [] && a[0] == b[0] {
      assert a == [a[0]] + a[1..] && b == [b[0]] + b[1..];
      LexLessTotal(a[1..], b[1..]);
    }
  }

  /** `<` followed by `<=` is `<`. */
  lemma LexLessLe(a: string, b: string, c: string)
    requires LexLess(a, b) && LexLe(b, c)
    ensures LexLess(a, c)
  {
    if b != c {
      LexLessTotal(b, c);
      LexLessTransitive(a, b, c);
    }
  }

  // --------------------------------------------------------- join and split

  /** `ws.join(sep)`. */
  function Join(ws: seq<string>, sep: string): string
    decreases |ws|
  {
    if ws == [] then ""
    else if |ws| == 1 then ws[0]
    else ws[0] + sep + Join(ws[1..], sep)
  }

  /** `s.split(c)` for a one-character separator. */
  function Split(s: string, c: char): seq<string>
    decreases |s|
  {
    if c !in s then [s]
    else
      var i := IndexOf(s, c);
      [s[..i]] + Split(s[i + 1..], c)
  }

  /** A join holds a character only if a word or the separator does. */
  lemma {:induction false} JoinAvoids(ws: seq<string>, sep: string, c: char)
    requires c !in sep && forall i :: 0 <= i < |ws| ==> c !in ws[i]
    ensures c !in Join(ws, sep)
    decreases |ws|
  {
    if |ws| > 1 {
      JoinAvoids(ws[1..], sep, c);
    }
  }

  function IndexOf(s: string, c: char): (i: nat)
    requires c in s
    ensures i < |s| && s[i] == c && c !in s[..i]
  {
    if s[0] == c then 0 else 1 + IndexOf(s[1..], c)
  }

  /** A first line without the separator splits off from the rest. */
  lemma SplitFirst(w: string, rest: string, c: char)
    requires c !in w
    ensures Split(w + [c] + rest, c) == [w] + Split(rest, c)
  {
    var s := w + [c] + rest;
    assert s[|w|] == c && s[..|w|] == w;
    assert IndexOf(s, c) == |w|;
    assert s[|w| + 1..] == rest;
  }

  /** Splitting a join at its separator gives back the words, when no word holds the separator. */
  lemma {:induction false} SplitJoin(ws: seq<string>, c: char)
    requires ws != []
    requires forall i :: 0 <= i < |ws| ==> c !in ws[i]
    ensures Split(Join(ws, [c]), c) == ws
    decreases |ws|
  {
    if |ws| > 1 {
      var s := Join(ws, [c]);
      var w := ws[0];
      assert s == w + [c] + Join(ws[1..], [c]);
      assert s[|w|] == c && s[..|w|] == w;
      assert c in s;
      var i := IndexOf(s, c);
      assert i == |w|;
      assert s[i + 1..] == Join(ws[1..], [c]);
      SplitJoin(ws[1..], c);
    }
  }

  // ------------------------------------------------------------------ digits

  predicate IsDigit(c: char) {
    '0' <= c <= '9'
  }

  predicate AllDigits(s: string) {
    forall i :: 0 <= i < |s| ==> IsDigit(s[i])
  }

  function DigitChar(d: nat): (c: char)
    requires d < 10
    ensures IsDigit(c)
  {
    ('0' as int + d) as char
  }

  function DigitValue(c: char): (d: nat)
    requires IsDigit(c)
    ensures d < 10 && DigitChar(d) == c
  {
    c as int - '0' as int
  }

  /** The decimal digits of a natural number, as `String(n)` prints it. */
  function NatText(n: nat): (s: string)
    ensures |s| > 0 && AllDigits(s)
  {
    if n < 10 then [DigitChar(n)] else NatText(n / 10) + [DigitChar(n % 10)]
  }

  /** `String(i)` for an integer. */
  function IntText(i: int): string {
    if i < 0 then "-" + NatText(-i) else NatText(i)
  }

  /** The number a string of decimal digits denotes. */
  function DigitsValue(s: string): nat
    requires AllDigits(s)
  {
    if s == [] then 0 else DigitsValue(s[..|s| - 1]) * 10 + DigitValue(s[|s| - 1])
  }

  lemma {:induction false} NatTextValue(n: nat)
    ensures DigitsValue(NatText(n)) == n
  {
    if n >= 10 {
      var s := NatText(n);
      assert s[..|s| - 1] == NatText(n / 10);
      NatTextValue(n / 10);
    }
  }

  /** `s.replace(/[^0-9]/g, '')`: keep only the characters 0 to 9. */
  function KeepDigits(s: string): (r: string)
    ensures AllDigits(r)
  {
    Filter(s, IsDigit)
  }

  /** Removing non-digits twice is removing them once, and digit strings are left alone. */
  lemma KeepDigitsIdempotent(s: string)
    ensures KeepDigits(KeepDigits(s)) == KeepDigits(s)
    ensures AllDigits(s) ==> KeepDigits(s) == s
  {
    FilterIdempotent(s, IsDigit);
    if AllDigits(s) {
      FilterAllPass(s, IsDigit);
    }
  }

  // ---------------------------------------------------------------- numbers

  function Pow10(k: nat): (r: nat)
    ensures r >= 1
  {
    if k == 0 then 1 else 10 * Pow10(k - 1)
  }

  /** The longest prefix of `s` made of digits. */
  function LeadingDigits(s: string): (r: string)
    ensures |r| <= |s| && r == s[..|r|] && AllDigits(r)
    ensures |r| < |s| ==> !IsDigit(s[|r|])
  {
    if s != [] && IsDigit(s[0]) then [s[0]] + LeadingDigits(s[1..]) else []
  }

  /**
   * `parseFloat(s)` for an optional sign, digits, and an optional fraction:
   * `None` stands for `NaN`, the result when no digit starts the text.
   */
  function ParseFloat(s: string): Option<real> {
    var signed := |s| > 0 && (s[0] == '-' || s[0] == '+');
    var body := if signed then s[1..] else s;
    var whole := LeadingDigits(body);
    var rest := body[|whole|..];
    var frac := if |rest| > 0 && rest[0] == '.' then LeadingDigits(rest[1..]) else [];
    if whole == [] && frac == [] then None
    else
      var v := DigitsValue(whole) as real + (if frac == [] then 0.0 else DigitsValue(frac) as real / Pow10(|frac|) as real);
      Some(if signed && s[0] == '-' then -v else v)
  }

  /** `parseFloat(s) || 0`: `NaN` (and zero) become zero. */
  function NumberOrZero(s: string): real {
    ParseFloat(s).GetOr(0.0)
  }

  lemma LeadingDigitsOfDigits(s: string)
    requires AllDigits(s)
    ensures LeadingDigits(s) == s
  {
  }

  /** A string of digits parses to the number it denotes, and to nothing when it is empty. */
  lemma ParseDigits(s: string)
    requires AllDigits(s)
    ensures s == [] ==> ParseFloat(s) == None
    ensures s != [] ==> ParseFloat(s) == Some(DigitsValue(s) as real)
  {
    LeadingDigitsOfDigits(s);
    if s != [] {
      assert IsDigit(s[0]) && s[0] != '-' && s[0] != '+';
      var rest := s[|LeadingDigits(s)|..];
      assert rest == [];
    }
  }

  /** The first `fuel` decimals of a fraction, stopping once the rest is zero. */
  function FractionDigits(f: real, fuel: nat): (s: string)
    requires 0.0 <= f < 1.0
    ensures AllDigits(s)
    decreases fuel
  {
    if fuel == 0 || f == 0.0 then ""
    else
      var d := (f * 10.0).Floor;
      [DigitChar(d)] + FractionDigits(f * 10.0 - d as real, fuel - 1)
  }

  /** The decimal point and the decimals of a non-negative number, or nothing for a whole number. */
  function FractionText(a: real): (s: string)
    requires a >= 0.0
    ensures s == "" <==> a == a.Floor as real
    ensures s != "" ==> s[0] == '.' && AllDigits(s[1..])
  {
    var f := a - a.Floor as real;
    if f == 0.0 then "" else "." + FractionDigits(f, 20)
  }

  /**
   * `String(x)` for a number: integers exactly, fractions with up to
   * twenty decimals.
   */
  function ShowNumber(x: real): string {
    var a := if x < 0.0 then -x else x;
    (if x < 0.0 then "-" else "") + NatText(a.Floor) + FractionText(a)
  }

  /** A character `String(x)` can print for a number. */
  predicate NumberChar(c: char) {
    IsDigit(c) || c == '-' || c == '.'
  }

  /** A printed number holds only digits, a leading minus and a decimal point. */
  lemma ShowNumberChars(x: real)
    ensures forall c :: c in ShowNumber(x) ==> NumberChar(c)
  {
    var a := if x < 0.0 then -x else x;
    NumberPieces(if x < 0.0 then "-" else "", NatText(a.Floor), FractionText(a));
  }

  lemma NumberPieces(sign: string, whole: string, frac: string)
    requires sign == "" || sign == "-"
    requires AllDigits(whole)
    requires frac != "" ==> frac[0] == '.' && AllDigits(frac[1..])
    ensures forall c :: c in sign + whole + frac ==> NumberChar(c)
  {
    forall c | c in sign + whole + frac ensures NumberChar(c) {
      if c in whole {
        var i :| 0 <= i < |whole| && whole[i] == c;
      } else if c in frac {
        var i :| 0 <= i < |frac| && frac[i] == c;
        if i > 0 {
          assert c == frac[1..][i - 1];
        }
      }
    }
  }

  /** Whole numbers print as their integer text. */
  lemma ShowWholeNumber(i: int)
    ensures ShowNumber(i as real) == IntText(i)
  {
    var n: nat := if i < 0 then -i else i;
    assert (n as real).Floor == n;
  }

  /** An integer's text parses back to the integer. */
  lemma ParseIntText(i: int)
    ensures ParseFloat(IntText(i)) == Some(i as real)
  {
    var n: nat := if i < 0 then -i else i;
    var s := NatText(n);
    LeadingDigitsOfDigits(s);
    NatTextValue(n);
    assert IsDigit(s[0]);
    if i < 0 {
      assert ("-" + s)[1..] == s;
    }
  }

  /** The digits a text starts with are found whole when a non-digit or the end follows them. */
  lemma {:induction false} LeadingDigitsPrefix(w: string, rest: string)
    requires AllDigits(w) && (rest == [] || !IsDigit(rest[0]))
    ensures LeadingDigits(w + rest) == w
    decreases |w|
  {
    if w != [] {
      assert (w + rest)[0] == w[0];
      assert (w + rest)[1..] == w[1..] + rest;
      LeadingDigitsPrefix(w[1..], rest);
    }
  }

  /**
   * `parseFloat` reads a number at the head of a text and ignores what
   * follows, once something other than a digit or a point follows it.
   */
  lemma ParseNatPrefix(n: nat, rest: string)
    requires rest != [] && !IsDigit(rest[0]) && rest[0] != '.'
    ensures ParseFloat(NatText(n) + rest) == Some(n as real)
  {
    var w := NatText(n);
    var s := w + rest;
    LeadingDigitsPrefix(w, rest);
    assert s[0] == w[0] && IsDigit(s[0]);
    assert s[|w|..] == rest;
    NatTextValue(n);
  }

  /** Printing an integer and parsing it back gives the integer. */
  lemma ShowNumberParses(i: int)
    ensures ParseFloat(ShowNumber(i as real)) == Some(i as real)
  {
    ShowWholeNumber(i);
    ParseIntText(i);
  }
}
