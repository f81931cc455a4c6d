/** What the parser promises about whole receipts: which line names the store, that the
    last total line wins, that items keep line order, what a blank text yields, and that
    the item and total lines a receipt prints are read back as the name and amount printed. */
module ReceiptFacts {
  import opened Text
  import opened Patterns
  import opened Amounts
  import opened Parser

  // ---------------------------------------------------------------------------
  // Store

  lemma {:induction false} StoreFromSpec(lines: seq<string>, i: nat)
    requires i <= 3
    ensures forall j :: (i <= j < |lines| && j < 3 && IsStoreLine(lines[j]) &&
              (forall h :: i <= h < j ==> !IsStoreLine(lines[h]))) ==> StoreFrom(lines, i) == lines[j]
    ensures (forall h :: i <= h < |lines| && h < 3 ==> !IsStoreLine(lines[h])) ==>
              StoreFrom(lines, i) == UnknownStore
    decreases 3 - i
  {
    if i < 3 && i < |lines| && !IsStoreLine(lines[i]) {
      StoreFromSpec(lines, i + 1);
    }
  }

  /** The store is the first of the first three lines that has more than two characters and
      no two adjacent digits; when none of them qualifies it is the sentinel. */
  lemma StoreOfSpec(lines: seq<string>)
    ensures forall j :: (0 <= j < |lines| && j < 3 && IsStoreLine(lines[j]) &&
              (forall h :: 0 <= h < j ==> !IsStoreLine(lines[h]))) ==> StoreOf(lines) == lines[j]
    ensures (forall h :: 0 <= h < |lines| && h < 3 ==> !IsStoreLine(lines[h])) ==>
              StoreOf(lines) == UnknownStore
  {
    StoreFromSpec(lines, 0);
  }

  // ---------------------------------------------------------------------------
  // Total

  /** Lines that state no total leave the stated total as it was. */
  lemma {:induction false} StatedTotalSkip(lines: seq<string>, m: nat)
    requires m <= |lines|
    requires forall i :: m <= i < |lines| ==> TotalLineAmount(lines[i]).None?
    ensures StatedTotal(lines) == StatedTotal(lines[..m])
  {
    var n := |lines|;
    if m < n {
      var init := lines[..n - 1];
      assert StatedTotal(lines) == StatedTotal(init) by {
        assert TotalLineAmount(lines[n - 1]).None?;
      }
      assert init[..m] == lines[..m];
      assert forall i :: m <= i < |init| ==> init[i] == lines[i];
      StatedTotalSkip(init, m);
    } else {
      assert lines[..m] == lines;
    }
  }

  /** A total line on which the price search finds a run, followed only by lines that state
      no total, sets the total: later total lines overwrite earlier ones, and a total line with
      no `[0-9,]` character at all does not. */
  lemma {:induction false} LastTotalWins(lines: seq<string>, j: nat)
    requires j < |lines| && TotalLineAmount(lines[j]).Some?
    requires forall i :: j < i < |lines| ==> TotalLineAmount(lines[i]).None?
    ensures StatedTotal(lines) == TotalLineAmount(lines[j]).value
  {
    StatedTotalSkip(lines, j + 1);
    StatedTotalPrefix(lines, j);
  }

  /** A total line whose first `[0-9,]` run holds no digit (a lone comma, say) still states a
      total: the token falls into the `ValueError` fallback, so the total is reset to 0. */
  lemma CommaTotalResets(lines: seq<string>, line: string)
    requires IsTotalLine(line) && FindPrice(line).Some?
    requires DigitsOf(line[FindPrice(line).value.0..FindPrice(line).value.1]) == []
    ensures TotalLineAmount(line) == Some(0)
    ensures StatedTotal(lines + [line]) == 0
  {
    var (d, e) := FindPrice(line).value;
    CleanPriceOfAmountToken(line[d..e]);
    assert (lines + [line])[..|lines|] == lines;
  }

  /** A worked example: `Total, tax incl.` after `合計 500` resets the stated total to 0. */
  lemma CommaTotalExample()
    ensures StatedTotal(["合計 500", "Total, tax incl."]) == 0
  {
    var line := "Total, tax incl.";
    CommaTotalWord();
    CommaTotalPrice();
    CommaTotalDigits();
    CommaTotalResets(["合計 500"], line);
    assert ["合計 500"] + [line] == ["合計 500", "Total, tax incl."];
  }

  lemma CommaTotalDigits()
    ensures DigitsOf("Total, tax incl."[5..6]) == []
  {
    assert "Total, tax incl."[5..6] == ",";
    assert ","[..0] == [];
  }

  lemma CommaTotalWord()
    ensures IsTotalLine("Total, tax incl.")
  {
    var line := "Total, tax incl.";
    assert TotalWordAt(line, 0);
    IsTotalLineIff(line);
  }

  lemma CommaTotalPrice()
    ensures FindPrice("Total, tax incl.") == Some((5, 6))
  {
    var line := "Total, tax incl.";
    assert forall i :: 0 <= i < 5 ==> !IsAmountChar(line[i]);
    FindPriceIs(line, 5, 6);
  }

  /** With no line stating a total, the stated total is 0 (and the item sum replaces it). */
  lemma {:induction false} NoTotalLine(lines: seq<string>)
    requires forall l <- lines :: TotalLineAmount(l).None?
    ensures StatedTotal(lines) == 0
  {
    if lines != [] {
      var init := lines[..|lines| - 1];
      assert lines[|lines| - 1] in lines;
      assert forall l <- init :: l in lines;
      NoTotalLine(init);
    }
  }

  /** The flag is computed from the stated total before the fallback: with a positive stated
      total the record keeps it and is consistent exactly when the items add up to it; with
      none the item sum becomes the total and the record is consistent. */
  lemma ReceiptTotalRule(text: string)
    ensures var r, stated := Receipt(text), StatedTotal(Lines(text));
      stated > 0 ==> r.total == stated && (r.consistent <==> Sum(r.items) == stated)
    ensures var r, stated := Receipt(text), StatedTotal(Lines(text));
      stated == 0 ==> r.total == Sum(r.items) && r.consistent
  {
  }

  // ---------------------------------------------------------------------------
  // Items

  /** Items of consecutive blocks of lines come out block by block, in line order. */
  lemma {:induction false} ItemsOfAppend(a: seq<string>, b: seq<string>, date: string, store: string)
    ensures ItemsOf(a + b, date, store) == ItemsOf(a, date, store) + ItemsOf(b, date, store)
  {
    if b == [] {
      assert a + b == a;
    } else {
      var b' := b[..|b| - 1];
      assert (a + b)[..|a + b| - 1] == a + b';
      assert (a + b)[|a + b| - 1] == b[|b| - 1];
      ItemsOfAppend(a, b', date, store);
    }
  }

  /** A single line yields the items `LineItems` gives it; a total line yields none. */
  lemma ItemsOfOneLine(line: string, date: string, store: string)
    ensures ItemsOf([line], date, store) == LineItems(line, date, store)
    ensures IsTotalLine(line) ==> ItemsOf([line], date, store) == []
  {
    assert [line][..0] == [];
  }

  /** Every item of the record carries the record's own date and store, and comes from a
      non-total line of the text whose item entry is that name and amount. */
  lemma ReceiptItemsFacts(text: string)
    ensures var r := Receipt(text);
      forall it <- r.items :: it.date == r.date && it.store == r.store &&
        |it.name| > 1 && !IsIgnoredName(it.name)
    ensures var r := Receipt(text);
      forall it <- r.items :: exists l <- Lines(text) ::
        !IsTotalLine(l) && ItemEntry(l) == Some((it.name, it.amount))
  {
    var lines := Lines(text);
    ItemsOfFacts(lines, DateOf(text), StoreOf(lines));
  }

  // ---------------------------------------------------------------------------
  // Item lines

  lemma {:induction false} GroupedIsAmount(n: nat)
    ensures |Grouped(n)| > 0 && AllAmount(Grouped(n))
  {
    if n >= 1000 {
      GroupedIsAmount(n / 1000);
      var g := Grouped(n / 1000) + "," + Pad3(n % 1000);
      assert Grouped(n) == g;
      forall i | 0 <= i < |g| ensures IsAmountChar(g[i]) {
        if i < |Grouped(n / 1000)| {
          assert g[i] == Grouped(n / 1000)[i];
        } else if i > |Grouped(n / 1000)| {
          assert g[i] == Pad3(n % 1000)[i - |Grouped(n / 1000)| - 1];
        }
      }
    }
  }

  /** The ASCII digits of `t`, in order. */
  function DigitsOf(t: string): (r: string)
    ensures forall i :: 0 <= i < |r| ==> IsAsciiDigit(r[i])
  {
    if t == [] then []
    else DigitsOf(t[..|t| - 1]) + if IsAsciiDigit(t[|t| - 1]) then [t[|t| - 1]] else []
  }

  lemma {:induction false} RemoveMarksOfAmountToken(t: string)
    requires AllAmount(t)
    ensures RemoveMarks(t) == DigitsOf(t)
  {
    if t != [] {
      var init, c := t[..|t| - 1], t[|t| - 1];
      assert AllAmount(init) by {
        assert forall i :: 0 <= i < |init| ==> init[i] == t[i];
      }
      RemoveMarksOfAmountToken(init);
      assert t == init + [c];
      RemoveMarksConcat(init, [c]);
      assert IsAmountChar(c);
      if IsAsciiDigit(c) {
        RemoveMarksOfPlain([c]);
      } else {
        RemoveMarksOfMarks([c]);
      }
    }
  }

  /** Every token the parser hands to `clean_price` is a run of `[0-9,]`: it never falls into
      the error path unless it is all commas, and its amount is the number its digits spell. */
  lemma CleanPriceOfAmountToken(t: string)
    requires AllAmount(t)
    ensures CleanPrice(t) == DecimalValue(DigitsOf(t))
    ensures DigitsOf(t) == [] ==> CleanPrice(t) == 0
  {
    RemoveMarksOfAmountToken(t);
  }

  /** On a line `name + sep + amount + unit` with the name's last character neither
      whitespace nor a yen sign, no shorter name admits a split. */
  lemma NoEarlierSplit(s: string, k: nat)
    requires 0 < k && k + 2 <= |s|
    requires !IsSpace(s[k - 1]) && !IsYen(s[k - 1])
    requires !IsAmountChar(s[k])
    ensures forall k': nat, d: nat, e': nat :: k' < k ==> !IsItemSplit(s, k', d, e')
  {
    forall k': nat, d: nat, e': nat | k' < k
      ensures !IsItemSplit(s, k', d, e')
    {
    }
  }

  /** An item line as a receipt prints it, `name`, a separator of whitespace with at most
      one yen sign, the amount with thousands separators and an optional `円`, is read back
      as that name and amount unless the name is a single character or holds an ignored
      word. This is the line's item entry; the parser takes it unless the name makes the line
      a total line. */
  lemma ItemLineRoundTrip(name: string, sep: string, n: nat, unit: string)
    requires name != [] && IsStripped(name) && !IsYen(name[|name| - 1])
    requires IsSeparator(sep)
    requires unit == "" || unit == "円"
    ensures ItemEntry(name + sep + Grouped(n) + unit) ==
              if |name| > 1 && !IsIgnoredName(name) then Some((name, n)) else None
  {
    var g := Grouped(n);
    var s := name + sep + g + unit;
    var k, d, e := |name|, |name| + |sep|, |name| + |sep| + |g|;
    GroupedIsAmount(n);
    assert s[..k] == name && s[k..d] == sep && s[d..e] == g;
    assert s[k] == sep[0] && s[k - 1] == name[k - 1];
    assert IsItemSplit(s, k, d, e) by {
      if unit != "" {
        assert s[e] == '円';
      }
    }
    NoEarlierSplit(s, k);
    MatchItemSpec(s);
    var m := MatchItem(s).value;
    assert m.nameEnd == k;
    ItemTailIff(s, k, d, e);
    ItemTailIff(s, k, m.amountStart, m.amountEnd);
    assert m == ItemMatch(k, d, e);
    StripStripped(name);
    CleanPriceOfReceiptAmount(n);
  }

  // ---------------------------------------------------------------------------
  // Total lines

  lemma ContainsPrefix(a: string, b: string, w: string)
    requires Contains(a, w)
    ensures Contains(a + b, w)
  {
    var i :| 0 <= i <= |a| && w <= a[i..];
    assert (a + b)[i..] == a[i..] + b;
  }

  /** The price search finds the first run of `[0-9,]`, in full. */
  lemma FindPriceIs(s: string, d: nat, e: nat)
    requires d < e <= |s|
    requires forall i :: 0 <= i < d ==> !IsAmountChar(s[i])
    requires forall i :: d <= i < e ==> IsAmountChar(s[i])
    requires e < |s| ==> !IsAmountChar(s[e])
    ensures FindPrice(s) == Some((d, e))
  {
    var r := FindPrice(s);
    assert IsAmountChar(s[d]);
    var (d', e') := r.value;
    assert IsAmountChar(s[d']) by {
      assert s[d'] == s[d'..e'][0];
    }
    assert d' == d;
    assert forall i :: d <= i < e' ==> IsAmountChar(s[i]) by {
      forall i | d <= i < e' ensures IsAmountChar(s[i]) {
        assert s[i] == s[d..e'][i - d];
      }
    }
    assert e' == e;
  }

  /** The price search on `heading + amount + tail` finds exactly the amount. */
  lemma TotalLinePriceSpan(heading: string, g: string, tail: string)
    requires forall i :: 0 <= i < |heading| ==> !IsAmountChar(heading[i])
    requires |g| > 0 && AllAmount(g)
    requires tail == [] || !IsAmountChar(tail[0])
    ensures FindPrice(heading + g + tail) == Some((|heading|, |heading| + |g|))
  {
    var s := heading + g + tail;
    var d, e := |heading|, |heading| + |g|;
    assert forall i :: 0 <= i < d ==> s[i] == heading[i];
    assert forall i :: d <= i < e ==> s[i] == g[i - d];
    assert e < |s| ==> s[e] == tail[0];
    FindPriceIs(s, d, e);
  }

  /** A total line as a receipt prints it, a heading holding `合計` and free of `[0-9,]`, then
      the amount with thousands separators and anything that does not start with `[0-9,]`,
      states that amount. */
  lemma TotalLineRoundTrip(heading: string, n: nat, tail: string)
    requires Contains(heading, "合計")
    requires forall i :: 0 <= i < |heading| ==> !IsAmountChar(heading[i])
    requires tail == [] || !IsAmountChar(tail[0])
    ensures TotalLineAmount(heading + Grouped(n) + tail) == Some(n)
  {
    var g := Grouped(n);
    var s := heading + g + tail;
    ContainsPrefix(heading, g + tail, "合計");
    assert heading + (g + tail) == s;
    GroupedIsAmount(n);
    TotalLinePriceSpan(heading, g, tail);
    assert s[|heading|..|heading| + |g|] == g;
    CleanPriceOfReceiptAmount(n);
  }

  // ---------------------------------------------------------------------------
  // Date and blank text

  /** The date is the verbatim text of the leftmost match of the date pattern, at its longest,
      or the sentinel when the text holds no date. */
  lemma DateOfLeftmostLongest(text: string)
    ensures DateOf(text) == UnknownDate ||
      exists b: nat, e: nat :: DateShape(text, b, e) && b <= e <= |text| && DateOf(text) == text[b..e] &&
        (forall j: nat, e': nat :: j < b ==> !DateShape(text, j, e')) &&
        (forall e': nat :: DateShape(text, b, e') ==> e' <= e)
  {
    var f := FindDate(text);
    if f.Some? {
      var (b, e) := f.value;
      assert DateShape(text, b, e);
    }
  }

  /** A text of whitespace only has no lines, so the record is all sentinels and zeros. */
  lemma BlankReceipt(text: string)
    requires AllSpace(text)
    ensures Receipt(text) == ReceiptRecord(UnknownStore, UnknownDate, [], 0, true)
  {
    LinesEmptyIffBlank(text);
    forall j: nat, e: nat ensures !DateShape(text, j, e) {
      if j < |text| {
        assert IsSpace(text[j]);
      }
    }
  }
}
