/** The regular expressions of the receipt parser, written out as matchers that follow
    the backtracking order of Python's `re`, each beside a declarative description of
    the language it accepts and a proof that the matcher picks the match `re` picks. For the
    item pattern that holds on lines without a newline, the only lines the parser passes: on
    them `.` matches any character and `$` is the end of the line. */
module Patterns {
  import opened Text

  datatype Option<T> = None | Some(value: T)

  predicate IsYen(c: char) {
    c == '¥' || c == '￥'
  }

  /** The class `[0-9,]` of the price and item patterns (ASCII digits only). */
  predicate IsAmountChar(c: char) {
    ('0' <= c <= '9') || c == ','
  }

  predicate AllAmount(s: string) {
    forall i :: 0 <= i < |s| ==> IsAmountChar(s[i])
  }

  /** End of the longest run of whitespace starting at `i` (what a greedy `\s*` consumes). */
  function SpaceEnd(s: string, i: nat): (e: nat)
    requires i <= |s|
    ensures i <= e <= |s|
    ensures forall k :: i <= k < e ==> IsSpace(s[k])
    ensures e < |s| ==> !IsSpace(s[e])
    decreases |s| - i
  {
    if i < |s| && IsSpace(s[i]) then SpaceEnd(s, i + 1) else i
  }

  /** End of the longest run of `[0-9,]` starting at `i` (what a greedy `[0-9,]*` consumes). */
  function AmountEnd(s: string, i: nat): (e: nat)
    requires i <= |s|
    ensures i <= e <= |s|
    ensures forall k :: i <= k < e ==> IsAmountChar(s[k])
    ensures e < |s| ==> !IsAmountChar(s[e])
    decreases |s| - i
  {
    if i < |s| && IsAmountChar(s[i]) then AmountEnd(s, i + 1) else i
  }

  // ---------------------------------------------------------------------------
  // `\d{2,}` searched anywhere in a line

  /** `re.search(r'\d{2,}', s)` succeeds: two digits stand side by side somewhere in `s`. */
  predicate HasDigitRun(s: string) {
    exists i | 0 <= i < |s| - 1 :: IsDigit(s[i]) && IsDigit(s[i + 1])
  }

  // ---------------------------------------------------------------------------
  // The price pattern `[¥￥]?\s*([0-9,]+)[円]?`, searched in a total line

  /** The pattern tried at position `i`: the span of group 1 if it matches there.
      A leading yen sign is taken when present; giving it back never helps, since
      neither `\s` nor `[0-9,]` accepts it. The optional trailing `円` never fails. */
  function PriceAt(s: string, i: nat): (r: Option<(nat, nat)>)
    requires i <= |s|
    ensures r.None? && i < |s| ==> !IsAmountChar(s[i])
    ensures r.Some? ==> var (d, e) := r.value;
      i <= d < e <= |s| && (forall k :: i <= k < d ==> !IsAmountChar(s[k])) &&
      (forall k :: d <= k < e ==> IsAmountChar(s[k])) && (e < |s| ==> !IsAmountChar(s[e]))
  {
    var j := if i < |s| && IsYen(s[i]) then i + 1 else i;
    var d := SpaceEnd(s, j);
    var e := AmountEnd(s, d);
    if d < e then Some((d, e)) else None
  }

  /** `re.search` of the price pattern from position `i`: the leftmost position that matches.
      Its group is the whole run of `[0-9,]` at the first such character after `i`. */
  function SearchPrice(s: string, i: nat): (r: Option<(nat, nat)>)
    requires i <= |s|
    ensures r.None? <==> forall k :: i <= k < |s| ==> !IsAmountChar(s[k])
    ensures r.Some? ==> var (d, e) := r.value;
      i <= d < e <= |s| && AllAmount(s[d..e]) && (e < |s| ==> !IsAmountChar(s[e])) &&
      forall k :: i <= k < d ==> !IsAmountChar(s[k])
    decreases |s| - i
  {
    if i == |s| then None
    else
      match PriceAt(s, i)
      case Some(span) => Some(span)
      case None => SearchPrice(s, i + 1)
  }

  function FindPrice(s: string): Option<(nat, nat)> {
    SearchPrice(s, 0)
  }

  // ---------------------------------------------------------------------------
  // The item pattern `^(.*?)\s+[¥￥]?\s*([0-9,]+)[円]?$`, matched against a whole line

  /** The language of `\s+[¥￥]?\s*`: whitespace first, then whitespace and at most one yen sign. */
  ghost predicate IsSeparator(t: string) {
    |t| >= 1 && IsSpace(t[0]) &&
    (forall i :: 0 <= i < |t| ==> IsSpace(t[i]) || IsYen(t[i])) &&
    (forall i, j :: 0 <= i < j < |t| && IsYen(t[i]) ==> !IsYen(t[j]))
  }

  /** `s` is a name `s[..k]`, a separator `s[k..d]`, an amount `s[d..e]` and an optional `円`. */
  ghost predicate IsItemSplit(s: string, k: nat, d: nat, e: nat) {
    k < d < e <= |s| && IsSeparator(s[k..d]) && AllAmount(s[d..e]) &&
    (e == |s| || (e + 1 == |s| && s[e] == '円'))
  }

  /** The part of the item pattern after group 1, tried at position `k`: the span of group 2.
      Backtracking any of the greedy steps cannot help: the classes involved are disjoint. */
  function ItemTailAt(s: string, k: nat): (r: Option<(nat, nat)>)
    requires k <= |s|
    ensures r.Some? ==> k < r.value.0 < r.value.1 <= |s|
  {
    var w := SpaceEnd(s, k);
    var y := if w < |s| && IsYen(s[w]) then w + 1 else w;
    var d := SpaceEnd(s, y);
    var e := AmountEnd(s, d);
    if k < w && d < e && (e == |s| || (e + 1 == |s| && s[e] == '円')) then Some((d, e)) else None
  }

  /** Spans of one item-pattern match: group 1 is `s[..nameEnd]`, group 2 `s[amountStart..amountEnd]`. */
  datatype ItemMatch = ItemMatch(nameEnd: nat, amountStart: nat, amountEnd: nat)

  /** The lazy `(.*?)`: try the shortest name first, from `k` upwards. */
  function SearchItem(s: string, k: nat): (r: Option<ItemMatch>)
    requires k <= |s|
    ensures r.Some? ==> k <= r.value.nameEnd < r.value.amountStart < r.value.amountEnd <= |s|
    decreases |s| - k
  {
    match ItemTailAt(s, k)
    case Some((d, e)) => Some(ItemMatch(k, d, e))
    case None => if k == |s| then None else SearchItem(s, k + 1)
  }

  /** `re.match` of the item pattern against a line without a newline, the only kind the
      parser passes. */
  function MatchItem(s: string): (r: Option<ItemMatch>)
    ensures r.Some? ==> r.value.nameEnd < r.value.amountStart < r.value.amountEnd <= |s|
  {
    SearchItem(s, 0)
  }

  lemma {:induction false} SpaceEndIs(s: string, i: nat, j: nat)
    requires i <= j <= |s|
    requires forall k :: i <= k < j ==> IsSpace(s[k])
    requires j < |s| ==> !IsSpace(s[j])
    ensures SpaceEnd(s, i) == j
    decreases j - i
  {
    if i < j {
      SpaceEndIs(s, i + 1, j);
    }
  }

  lemma {:induction false} AmountEndIs(s: string, i: nat, j: nat)
    requires i <= j <= |s|
    requires forall k :: i <= k < j ==> IsAmountChar(s[k])
    requires j < |s| ==> !IsAmountChar(s[j])
    ensures AmountEnd(s, i) == j
    decreases j - i
  {
    if i < j {
      AmountEndIs(s, i + 1, j);
    }
  }

  /** Every match the matcher reports at `k` is a split of the item language. */
  lemma {:induction false} ItemTailSound(s: string, k: nat)
    requires k <= |s|
    requires ItemTailAt(s, k).Some?
    ensures IsItemSplit(s, k, ItemTailAt(s, k).value.0, ItemTailAt(s, k).value.1)
  {
    var w := SpaceEnd(s, k);
    var (d, e) := ItemTailAt(s, k).value;
    var t := s[k..d];
    assert forall i :: 0 <= i < |t| ==> t[i] == s[k + i];
    forall i, j | 0 <= i < j < |t| && IsYen(t[i])
      ensures !IsYen(t[j])
    {
      assert k + i == w;
    }
    assert IsSeparator(t);
    assert AllAmount(s[d..e]) by {
      assert forall i :: 0 <= i < e - d ==> s[d..e][i] == s[d + i];
    }
  }

  /** A separator holding one yen sign at `p`: whitespace on both sides of it. */
  lemma {:induction false} SeparatorWithYen(s: string, k: nat, d: nat, p: nat)
    requires k <= p < d <= |s|
    requires IsSeparator(s[k..d])
    requires !IsSpace(s[p])
    ensures k < p && IsYen(s[p])
    ensures forall i :: k <= i < d && i != p ==> IsSpace(s[i])
  {
    var t := s[k..d];
    assert t[p - k] == s[p];
    assert t[0] == s[k];
    forall i | k <= i < d && i != p ensures IsSpace(s[i]) {
      assert t[i - k] == s[i];
    }
  }

  /** A run of `[0-9,]` that ends at `e` (the end or `円`) is what `AmountEnd` consumes. */
  lemma {:induction false} AmountRunEnd(s: string, d: nat, e: nat)
    requires d < e <= |s|
    requires AllAmount(s[d..e])
    requires e == |s| || (e + 1 == |s| && s[e] == '円')
    ensures IsAmountChar(s[d]) && AmountEnd(s, d) == e
  {
    forall i | d <= i < e ensures IsAmountChar(s[i]) {
      assert s[i] == s[d..e][i - d];
    }
    AmountEndIs(s, d, e);
  }

  /** The matcher's steps at `k` when the whitespace before a possible yen sign ends at `w`,
      the sign (if any) ends at `y`, the whitespace after it at `d`, and the amount at `e`. */
  lemma {:induction false} ItemTailSteps(s: string, k: nat, w: nat, y: nat, d: nat, e: nat)
    requires k < w <= y <= d < e <= |s|
    requires forall i :: k <= i < w ==> IsSpace(s[i])
    requires !IsSpace(s[w])
    requires y == (if IsYen(s[w]) then w + 1 else w)
    requires forall i :: y <= i < d ==> IsSpace(s[i])
    requires AllAmount(s[d..e])
    requires e == |s| || (e + 1 == |s| && s[e] == '円')
    ensures ItemTailAt(s, k) == Some((d, e))
  {
    AmountRunEnd(s, d, e);
    SpaceEndIs(s, k, w);
    SpaceEndIs(s, y, d);
  }

  /** Every split of the item language at `k` is the one the matcher reports there. */
  lemma {:induction false} ItemTailComplete(s: string, k: nat, d: nat, e: nat)
    requires k <= |s|
    requires IsItemSplit(s, k, d, e)
    ensures ItemTailAt(s, k) == Some((d, e))
  {
    AmountRunEnd(s, d, e);
    if forall i :: k <= i < d ==> IsSpace(s[i]) {
      ItemTailSteps(s, k, d, d, d, e);
    } else {
      var p :| k <= p < d && !IsSpace(s[p]);
      SeparatorWithYen(s, k, d, p);
      ItemTailSteps(s, k, p, p + 1, d, e);
    }
  }

  /** The matcher's group 2 at `k` is exactly the split the item language allows at `k`;
      in particular that split is unique. */
  lemma {:induction false} ItemTailIff(s: string, k: nat, d: nat, e: nat)
    requires k <= |s|
    ensures ItemTailAt(s, k) == Some((d, e)) <==> IsItemSplit(s, k, d, e)
  {
    if ItemTailAt(s, k) == Some((d, e)) {
      ItemTailSound(s, k);
    }
    if IsItemSplit(s, k, d, e) {
      ItemTailComplete(s, k, d, e);
    }
  }

  /** The lazy search returns the shortest name that admits a split, and no shorter name does. */
  lemma {:induction false} SearchItemSpec(s: string, k: nat)
    requires k <= |s|
    ensures var r := SearchItem(s, k);
      r.Some? ==> IsItemSplit(s, r.value.nameEnd, r.value.amountStart, r.value.amountEnd)
    ensures var r := SearchItem(s, k);
      forall k': nat, d: nat, e: nat :: k <= k' && (r.None? || k' < r.value.nameEnd) ==> !IsItemSplit(s, k', d, e)
    decreases |s| - k
  {
    var r := SearchItem(s, k);
    var tail := ItemTailAt(s, k);
    if tail.Some? {
      ItemTailSound(s, k);
      assert r == Some(ItemMatch(k, tail.value.0, tail.value.1));
    } else {
      forall d: nat, e: nat ensures !IsItemSplit(s, k, d, e) {
        ItemTailIff(s, k, d, e);
      }
      if k < |s| {
        SearchItemSpec(s, k + 1);
        assert r == SearchItem(s, k + 1);
        forall k': nat, d: nat, e: nat | k <= k' && (r.None? || k' < r.value.nameEnd)
          ensures !IsItemSplit(s, k', d, e)
        {
          if k' == k {
            assert !IsItemSplit(s, k, d, e);
          }
        }
      } else {
        assert r.None?;
        forall k': nat, d: nat, e: nat | k <= k' ensures !IsItemSplit(s, k', d, e) {
        }
      }
    }
  }

  /** What a successful `re.match` of the item pattern means, and that it fails only when no
      split exists. */
  lemma {:induction false} MatchItemSpec(s: string)
    ensures var r := MatchItem(s);
      r.Some? ==> IsItemSplit(s, r.value.nameEnd, r.value.amountStart, r.value.amountEnd)
    ensures var r := MatchItem(s);
      forall k: nat, d: nat, e: nat :: (r.None? || k < r.value.nameEnd) ==> !IsItemSplit(s, k, d, e)
  {
    SearchItemSpec(s, 0);
  }

  /** Widening the separator by one whitespace character on its left keeps a split. */
  lemma {:induction false} SplitExtendsLeft(s: string, k: nat, d: nat, e: nat)
    requires 0 < k && IsItemSplit(s, k, d, e)
    ensures IsSpace(s[k - 1]) ==> IsItemSplit(s, k - 1, d, e)
  {
    if IsSpace(s[k - 1]) {
      var t := s[k..d];
      var t' := s[k - 1..d];
      assert t' == [s[k - 1]] + t;
      assert forall i :: 1 <= i < |t'| ==> t'[i] == t[i - 1];
    }
  }

  /** On a line with no leading or trailing whitespace, group 1 of the item pattern has none
      either, so the `.strip()` applied to it changes nothing. */
  lemma {:induction false} ItemNameIsStripped(s: string)
    requires IsStripped(s)
    requires MatchItem(s).Some?
    ensures IsStripped(s[..MatchItem(s).value.nameEnd])
  {
    var m := MatchItem(s).value;
    var k := m.nameEnd;
    MatchItemSpec(s);
    if k > 0 {
      assert s[..k][0] == s[0];
      SplitExtendsLeft(s, k, m.amountStart, m.amountEnd);
      assert !IsSpace(s[k - 1]);
    }
  }

  // ---------------------------------------------------------------------------
  // The date pattern `\d{4}[年/.-]\d{1,2}[月/.-]\d{1,2}[日]?`, searched in the whole text

  predicate IsYearSep(c: char) {
    c == '年' || c == '/' || c == '.' || c == '-'
  }

  predicate IsMonthSep(c: char) {
    c == '月' || c == '/' || c == '.' || c == '-'
  }

  ghost predicate DigitsAt(s: string, p: nat, n: nat) {
    p + n <= |s| && forall k :: p <= k < p + n ==> IsDigit(s[k])
  }

  /** `\d{1,2}[日]?` matched at `q` and ending at `e`. */
  ghost predicate DayShape(s: string, q: nat, e: nat) {
    (DigitsAt(s, q, 1) && (e == q + 1 || (e == q + 2 && q + 1 < |s| && s[q + 1] == '日'))) ||
    (DigitsAt(s, q, 2) && (e == q + 2 || (e == q + 3 && q + 2 < |s| && s[q + 2] == '日')))
  }

  /** `\d{n}[月/.-]` followed by a day, at `p`, ending at `e`. */
  ghost predicate MonthDayShape(s: string, p: nat, n: nat, e: nat) {
    DigitsAt(s, p, n) && p + n < |s| && IsMonthSep(s[p + n]) && DayShape(s, p + n + 1, e)
  }

  /** `s[i..e]` is in the language of the date pattern. */
  ghost predicate DateShape(s: string, i: nat, e: nat) {
    DigitsAt(s, i, 4) && i + 4 < |s| && IsYearSep(s[i + 4]) &&
    (MonthDayShape(s, i + 5, 1, e) || MonthDayShape(s, i + 5, 2, e))
  }

  /** The date pattern tried at `i` in the engine's order: month of two digits before one,
      day of two digits before one, `日` taken when present. The result is the match's end,
      which is the longest the pattern allows at `i`. */
  function DateAt(s: string, i: nat): (r: Option<nat>)
    requires i <= |s|
    ensures r.Some? ==> DateShape(s, i, r.value)
    ensures forall e: nat :: DateShape(s, i, e) ==> r.Some? && e <= r.value
  {
    if i + 5 < |s| && IsDigit(s[i]) && IsDigit(s[i + 1]) && IsDigit(s[i + 2]) && IsDigit(s[i + 3])
       && IsYearSep(s[i + 4])
    then
      var m := i + 5;
      var p :=
        if m + 2 < |s| && IsDigit(s[m]) && IsDigit(s[m + 1]) && IsMonthSep(s[m + 2]) then m + 3
        else if m + 1 < |s| && IsDigit(s[m]) && IsMonthSep(s[m + 1]) then m + 2
        else 0;
      if p != 0 && p < |s| && IsDigit(s[p]) then
        var q := if p + 1 < |s| && IsDigit(s[p + 1]) then p + 2 else p + 1;
        Some(if q < |s| && s[q] == '日' then q + 1 else q)
      else None
    else None
  }

  /** `re.search` of the date pattern from `i`: the leftmost position where it matches. */
  function SearchDate(s: string, i: nat): (r: Option<(nat, nat)>)
    requires i <= |s|
    ensures r.Some? ==> var (b, e) := r.value;
      i <= b && DateShape(s, b, e) && (forall e': nat :: DateShape(s, b, e') ==> e' <= e)
    ensures forall j, e' :: i <= j && (r.None? || j < r.value.0) ==> !DateShape(s, j, e')
    decreases |s| - i
  {
    match DateAt(s, i)
    case Some(e) => Some((i, e))
    case None =>
      if i == |s| then
        assert forall j, e' :: i <= j ==> !DateShape(s, j, e') by {
          forall j, e' | i <= j ensures !DateShape(s, j, e') {
            if j == i { assert DateAt(s, j).None?; }
          }
        }
        None
      else SearchDate(s, i + 1)
  }

  function FindDate(s: string): Option<(nat, nat)> {
    SearchDate(s, 0)
  }
}
