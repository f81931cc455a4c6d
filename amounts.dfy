/** `clean_price`: a captured price token becomes an amount. Currency signs, the unit word,
    thousands separators and whitespace are deleted, the rest is read as a number, and a
    rest that does not read as a number gives 0. Amounts are whole numbers here. */
module Amounts {
  import opened Text

  /** The characters `[¥￥,円\s]` that the cleaning substitution deletes. */
  predicate IsPriceMark(c: char) {
    c == '¥' || c == '￥' || c == ',' || c == '円' || IsSpace(c)
  }

  /** `re.sub(r'[¥￥,円\s]', '', s)`. */
  function RemoveMarks(s: string): (r: string)
    ensures |r| <= |s|
    ensures forall i :: 0 <= i < |r| ==> !IsPriceMark(r[i]) && r[i] in s
  {
    if s == [] then []
    else (if IsPriceMark(s[0]) then [] else [s[0]]) + RemoveMarks(s[1..])
  }

  lemma {:induction false} RemoveMarksConcat(a: string, b: string)
    ensures RemoveMarks(a + b) == RemoveMarks(a) + RemoveMarks(b)
  {
    if a != [] {
      assert (a + b)[1..] == a[1..] + b;
      RemoveMarksConcat(a[1..], b);
    } else {
      assert a + b == b;
    }
  }

  lemma {:induction false} RemoveMarksOfMarks(a: string)
    requires forall i :: 0 <= i < |a| ==> IsPriceMark(a[i])
    ensures RemoveMarks(a) == []
  {
    if a != [] {
      RemoveMarksOfMarks(a[1..]);
    }
  }

  lemma {:induction false} RemoveMarksOfPlain(a: string)
    requires forall i :: 0 <= i < |a| ==> !IsPriceMark(a[i])
    ensures RemoveMarks(a) == a
  {
    if a != [] {
      RemoveMarksOfPlain(a[1..]);
    }
  }

  predicate IsAsciiDigit(c: char) {
    '0' <= c <= '9'
  }

  /** A non-empty string of ASCII digits: what Python's `float()` reads as a whole number. */
  predicate IsDecimal(s: string) {
    |s| > 0 && forall i :: 0 <= i < |s| ==> IsAsciiDigit(s[i])
  }

  function DigitValue(c: char): nat
    requires IsAsciiDigit(c)
  {
    c as int - '0' as int
  }

  function DigitChar(d: nat): (c: char)
    requires d < 10
    ensures IsAsciiDigit(c) && DigitValue(c) == d
  {
    ('0' as int + d) as char
  }

  /** The number a string of ASCII digits denotes (leading zeros allowed). */
  function DecimalValue(s: string): nat
    requires forall i :: 0 <= i < |s| ==> IsAsciiDigit(s[i])
  {
    if s == [] then 0 else DecimalValue(s[..|s| - 1]) * 10 + DigitValue(s[|s| - 1])
  }

  /** `clean_price`: delete the marks, read the rest as a number, 0 when it is not one. */
  function CleanPrice(token: string): (amount: nat)
    ensures (forall i :: 0 <= i < |token| ==> !IsAsciiDigit(token[i])) ==> amount == 0
  {
    var rest := RemoveMarks(token);
    if IsDecimal(rest) then DecimalValue(rest) else 0
  }

  /** The decimal rendering of `n`, Python's `str(n)`. */
  function ToDecimal(n: nat): (s: string)
    ensures IsDecimal(s)
  {
    if n < 10 then [DigitChar(n)] else ToDecimal(n / 10) + [DigitChar(n % 10)]
  }

  lemma {:induction false} DecimalValueOfToDecimal(n: nat)
    ensures DecimalValue(ToDecimal(n)) == n
  {
    if n >= 10 {
      var s := ToDecimal(n);
      assert s[..|s| - 1] == ToDecimal(n / 10);
      DecimalValueOfToDecimal(n / 10);
    }
  }

  /** Cleaning the plain rendering of an amount gives the amount back. */
  lemma {:induction false} CleanPriceOfDecimal(n: nat)
    ensures CleanPrice(ToDecimal(n)) == n
  {
    var s := ToDecimal(n);
    RemoveMarksOfPlain(s);
    DecimalValueOfToDecimal(n);
  }

  /** The three digits of `r` with leading zeros, as between thousands separators. */
  function Pad3(r: nat): (s: string)
    requires r < 1000
    ensures |s| == 3 && IsDecimal(s)
  {
    [DigitChar(r / 100), DigitChar(r / 10 % 10), DigitChar(r % 10)]
  }

  /** `n` written with a comma between groups of three digits, as receipts print it. */
  function Grouped(n: nat): string
  {
    if n < 1000 then ToDecimal(n) else Grouped(n / 1000) + "," + Pad3(n % 1000)
  }

  lemma {:induction false} DecimalValueSnoc(a: string, c: char)
    requires forall i :: 0 <= i < |a| ==> IsAsciiDigit(a[i])
    requires IsAsciiDigit(c)
    ensures forall i :: 0 <= i < |a + [c]| ==> IsAsciiDigit((a + [c])[i])
    ensures DecimalValue(a + [c]) == DecimalValue(a) * 10 + DigitValue(c)
  {
    assert (a + [c])[..|a|] == a;
  }

  lemma {:induction false} DecimalValueAppend3(a: string, r: nat)
    requires forall i :: 0 <= i < |a| ==> IsAsciiDigit(a[i])
    requires r < 1000
    ensures DecimalValue(a + Pad3(r)) == DecimalValue(a) * 1000 + r
  {
    var p := Pad3(r);
    DecimalValueSnoc(a, p[0]);
    DecimalValueSnoc(a + [p[0]], p[1]);
    DecimalValueSnoc(a + [p[0]] + [p[1]], p[2]);
    assert a + p == a + [p[0]] + [p[1]] + [p[2]];
  }

  lemma {:induction false} GroupedStep(q: nat, r: nat)
    requires q > 0 && r < 1000
    ensures Grouped(q * 1000 + r) == Grouped(q) + "," + Pad3(r)
    ensures RemoveMarks(Grouped(q * 1000 + r)) == RemoveMarks(Grouped(q)) + Pad3(r)
  {
    var n := q * 1000 + r;
    assert n / 1000 == q && n % 1000 == r;
    assert Grouped(n) == Grouped(q) + "," + Pad3(r);
    RemoveMarksCommaGroup(Grouped(q), Pad3(r));
  }

  lemma {:induction false} RemoveMarksCommaGroup(g: string, p: string)
    requires IsDecimal(p)
    ensures RemoveMarks(g + "," + p) == RemoveMarks(g) + p
  {
    RemoveMarksConcat(g + ",", p);
    RemoveMarksConcat(g, ",");
    RemoveMarksOfMarks(",");
    RemoveMarksOfPlain(p);
    assert RemoveMarks(g) + [] == RemoveMarks(g);
  }

  lemma {:induction false} GroupedValue(n: nat)
    ensures IsDecimal(RemoveMarks(Grouped(n)))
    ensures DecimalValue(RemoveMarks(Grouped(n))) == n
  {
    if n < 1000 {
      RemoveMarksOfPlain(ToDecimal(n));
      DecimalValueOfToDecimal(n);
    } else {
      var q, r := n / 1000, n % 1000;
      assert n == q * 1000 + r;
      GroupedValue(q);
      GroupedStep(q, r);
      DecimalValueAppend3(RemoveMarks(Grouped(q)), r);
    }
  }

  /** Marks around a token do not change its amount. */
  lemma {:induction false} CleanPriceIgnoresMarks(before: string, token: string, after: string)
    requires forall i :: 0 <= i < |before| ==> IsPriceMark(before[i])
    requires forall i :: 0 <= i < |after| ==> IsPriceMark(after[i])
    ensures CleanPrice(before + token + after) == CleanPrice(token)
  {
    RemoveMarksConcat(before + token, after);
    RemoveMarksConcat(before, token);
    RemoveMarksOfMarks(before);
    RemoveMarksOfMarks(after);
    assert [] + RemoveMarks(token) + [] == RemoveMarks(token);
  }

  /** A receipt amount written with thousands separators, a yen sign and the unit word
      cleans to that amount, e.g. `¥1,200円` to 1200. */
  lemma {:induction false} CleanPriceOfReceiptAmount(n: nat)
    ensures CleanPrice(Grouped(n)) == n
    ensures CleanPrice("¥" + Grouped(n) + "円") == n
    ensures CleanPrice("￥" + Grouped(n)) == n
  {
    GroupedValue(n);
    CleanPriceIgnoresMarks("¥", Grouped(n), "円");
    CleanPriceIgnoresMarks("￥", Grouped(n), "");
    assert "￥" + Grouped(n) + "" == "￥" + Grouped(n);
  }

  /** A worked example: `¥1,200円` cleans to 1200. */
  lemma {:induction false} CleanPriceYenExample()
    ensures CleanPrice("¥1,200円") == 1200
  {
    var g := Grouped(1200);
    assert g == "1,200" by {
      assert Grouped(1) == "1";
      assert Pad3(200) == "200";
    }
    assert CleanPrice("¥" + g + "円") == 1200 by {
      CleanPriceOfReceiptAmount(1200);
    }
    assert "¥" + g + "円" == "¥1,200円";
  }

  /** Tokens that do not read as a number give 0 instead of an error. */
  lemma {:induction false} CleanPriceFallbackExamples()
    ensures CleanPrice("n/a") == 0
    ensures CleanPrice("") == 0
    ensures CleanPrice(",,") == 0
  {
    assert RemoveMarks(",,") == [] by {
      RemoveMarksOfMarks(",,");
    }
  }
}
