/** `parse_receipt_text`: OCR text to a receipt record. The date is the first date-shaped
    substring of the whole text, the store the first plausible name among the first three
    lines, the total the amount on the last total line, and the items every other line that
    ends in a price. The record flags whether the items add up to the stated total. */
module Parser {
  import opened Text
  import opened Patterns
  import opened Amounts

  const UnknownStore: string := "不明な店舗"
  const UnknownDate: string := "日付不明"

  /** Words that mark a priced line as not merchandise: change, cash, credit, change given,
      subtotal, tax. */
  const IgnoreWords: seq<string> := ["おつり", "現金", "クレジット", "釣銭", "小計", "税"]

  /** One purchased item; date and store are copies of the record's, for flat export. */
  datatype LineItem = LineItem(date: string, store: string, name: string, amount: nat)

  datatype ReceiptRecord = ReceiptRecord(
    store: string,
    date: string,
    items: seq<LineItem>,
    total: nat,
    consistent: bool)

  /** A line that states the total: it contains `合計`, `合 計`, or `total` in any case. */
  predicate IsTotalLine(line: string) {
    Contains(line, "合計") || Contains(Lower(line), "total") || Contains(line, "合 計")
  }

  /** `line` holds `total` at position `i`, each letter in upper or lower case. */
  predicate TotalWordAt(line: string, i: nat) {
    i + 5 <= |line| &&
    forall k | 0 <= k < 5 :: line[i + k] == "total"[k] || line[i + k] == "TOTAL"[k]
  }

  /** `line` holds `total` in some mix of upper and lower case. */
  predicate HasTotalWord(line: string) {
    exists i: nat | i <= |line| :: TotalWordAt(line, i)
  }

  lemma LowerTotalAt(line: string, i: nat)
    requires i + 5 <= |line|
    ensures "total" <= Lower(line)[i..] <==> TotalWordAt(line, i)
  {
    var l := Lower(line);
    if "total" <= l[i..] {
      forall k | 0 <= k < 5 ensures line[i + k] == "total"[k] || line[i + k] == "TOTAL"[k] {
        assert l[i..][k] == l[i + k] == LowerChar(line[i + k]);
      }
    }
    if TotalWordAt(line, i) {
      forall k | 0 <= k < 5 ensures l[i..][k] == "total"[k] {
        assert l[i..][k] == LowerChar(line[i + k]);
      }
    }
  }

  /** The case-insensitive test `"total" in line.lower()` holds exactly when the line holds
      `total` in some mix of cases; so a line is a total line exactly when it holds `合計`,
      `合 計` or such a `total`. */
  lemma IsTotalLineIff(line: string)
    ensures IsTotalLine(line) <==>
      Contains(line, "合計") || Contains(line, "合 計") || HasTotalWord(line)
  {
    var l := Lower(line);
    if Contains(l, "total") {
      var i :| 0 <= i <= |l| && "total" <= l[i..];
      assert |"total"| == 5 && |"total"| <= |l[i..]| && |l| == |line|;
      LowerTotalAt(line, i);
    }
    if HasTotalWord(line) {
      var i: nat :| i <= |line| && TotalWordAt(line, i);
      assert i + 5 <= |line|;
      LowerTotalAt(line, i);
      assert "total" <= l[i..];
    }
  }

  /** A line that can name the store: longer than two characters, no two digits in a row. */
  predicate IsStoreLine(line: string) {
    !HasDigitRun(line) && |line| > 2
  }

  predicate IsIgnoredName(name: string) {
    exists w <- IgnoreWords :: Contains(name, w)
  }

  // ---------------------------------------------------------------------------
  // The record's fields, one specification function each

  /** The first match of the date pattern in the whole text, verbatim; the sentinel otherwise. */
  function DateOf(text: string): (date: string)
    ensures date == UnknownDate <==> forall j: nat, e: nat :: !DateShape(text, j, e)
  {
    match FindDate(text)
    case Some((b, e)) =>
      assert b < e <= |text| && IsDigit(text[b]);
      assert !IsDigit(UnknownDate[0]);
      text[b..e]
    case None => UnknownDate
  }

  /** The store chosen among the first three lines, looking from line `i` on. */
  function StoreFrom(lines: seq<string>, i: nat): string
    decreases 3 - i
  {
    if i < 3 && i < |lines| then
      if IsStoreLine(lines[i]) then lines[i] else StoreFrom(lines, i + 1)
    else UnknownStore
  }

  function StoreOf(lines: seq<string>): string {
    StoreFrom(lines, 0)
  }

  /** The amount a line states when it is a total line and the price pattern finds a
      `[0-9,]` run; a run of commas alone states 0. */
  function TotalLineAmount(line: string): Option<nat> {
    if IsTotalLine(line) then
      match FindPrice(line)
      case Some((d, e)) => Some(CleanPrice(line[d..e]))
      case None => None
    else None
  }

  /** The total the receipt states: the last total line on which the price pattern finds a
      run wins, even when that run is only commas and states 0; 0 when there is none. */
  function StatedTotal(lines: seq<string>): nat {
    if lines == [] then 0
    else
      match TotalLineAmount(lines[|lines| - 1])
      case Some(amount) => amount
      case None => StatedTotal(lines[..|lines| - 1])
  }

  /** What an item line yields: the trimmed name and the amount, unless the name is a single
      character or holds an ignored word. */
  function ItemEntry(line: string): Option<(string, nat)> {
    match MatchItem(line)
    case None => None
    case Some(m) =>
      var name := Strip(line[..m.nameEnd]);
      if |name| > 1 && !IsIgnoredName(name) then
        Some((name, CleanPrice(line[m.amountStart..m.amountEnd])))
      else None
  }

  /** The items one line contributes: none for a total line, at most one otherwise. */
  function LineItems(line: string, date: string, store: string): seq<LineItem> {
    if IsTotalLine(line) then []
    else
      match ItemEntry(line)
      case Some((name, amount)) => [LineItem(date, store, name, amount)]
      case None => []
  }

  /** The items of a sequence of lines, in line order. */
  function ItemsOf(lines: seq<string>, date: string, store: string): (items: seq<LineItem>)
    ensures |items| <= |lines|
  {
    if lines == [] then []
    else ItemsOf(lines[..|lines| - 1], date, store) + LineItems(lines[|lines| - 1], date, store)
  }

  /** Every item carries the given date and store, a name longer than one character with no
      ignored word, and comes from a line that is not a total line. */
  lemma {:induction false} ItemsOfFacts(lines: seq<string>, date: string, store: string)
    ensures forall it <- ItemsOf(lines, date, store) :: it.date == date && it.store == store
    ensures forall it <- ItemsOf(lines, date, store) :: |it.name| > 1 && !IsIgnoredName(it.name)
    ensures forall it <- ItemsOf(lines, date, store) ::
              exists l <- lines :: !IsTotalLine(l) && ItemEntry(l) == Some((it.name, it.amount))
  {
    if lines != [] {
      var init := lines[..|lines| - 1];
      ItemsOfFacts(init, date, store);
      assert forall x <- init :: x in lines;
    }
  }

  lemma {:induction false} ItemsOfPrefix(lines: seq<string>, i: nat, date: string, store: string)
    requires i < |lines|
    ensures ItemsOf(lines[..i + 1], date, store) ==
              ItemsOf(lines[..i], date, store) + LineItems(lines[i], date, store)
  {
    assert lines[..i + 1][..i] == lines[..i];
  }

  lemma {:induction false} StatedTotalPrefix(lines: seq<string>, i: nat)
    requires i < |lines|
    ensures StatedTotal(lines[..i + 1]) ==
              match TotalLineAmount(lines[i]) case Some(a) => a case None => StatedTotal(lines[..i])
  {
    assert lines[..i + 1][..i] == lines[..i];
  }

  function Sum(items: seq<LineItem>): nat {
    if items == [] then 0 else Sum(items[..|items| - 1]) + items[|items| - 1].amount
  }

  /** The record `parse_receipt_text` returns. When the receipt states a positive total the
      flag says whether the items add up to it; otherwise the item sum becomes the total and
      the flag is set. */
  function Receipt(text: string): (r: ReceiptRecord)
    ensures r.consistent <==> r.total == Sum(r.items)
    ensures r.total > 0 && r.total != Sum(r.items) ==> r.total == StatedTotal(Lines(text))
  {
    var lines := Lines(text);
    var date := DateOf(text);
    var store := StoreOf(lines);
    var items := ItemsOf(lines, date, store);
    var stated := StatedTotal(lines);
    var sum := Sum(items);
    ReceiptRecord(store, date, items, if stated == 0 then sum else stated,
                  if stated > 0 then sum == stated else true)
  }

  // ---------------------------------------------------------------------------
  // The parser as the source runs it

  /** `sum(item["金額"] for item in items)`. */
  method SumAmounts(items: seq<LineItem>) returns (total: nat)
    ensures total == Sum(items)
  {
    total := 0;
    for j := 0 to |items|
      invariant total == Sum(items[..j])
    {
      assert items[..j + 1][..j] == items[..j];
      total := total + items[j].amount;
    }
    assert items[..|items|] == items;
  }

  /** The store loop: the first of the first three lines that can name the store, with an
      early exit; the sentinel when none can. */
  method PickStore(lines: seq<string>) returns (storeName: string)
    ensures storeName == StoreOf(lines)
  {
    storeName := UnknownStore;
    if |lines| > 0 {
      var i := 0;
      while i < |lines| && i < 3
        invariant i <= |lines| && i <= 3
        invariant storeName == UnknownStore
        invariant StoreFrom(lines, i) == StoreOf(lines)
      {
        if !HasDigitRun(lines[i]) && |lines[i]| > 2 {
          storeName := lines[i];
          break;
        }
        i := i + 1;
      }
    }
  }

  /** The pass over the lines: a total line overwrites the total when the price pattern finds
      a number in it and is never an item; any other line may append one item. */
  method ScanLines(lines: seq<string>, dateStr: string, storeName: string)
    returns (totalPrice: nat, items: seq<LineItem>)
    ensures totalPrice == StatedTotal(lines)
    ensures items == ItemsOf(lines, dateStr, storeName)
  {
    totalPrice, items := 0, [];
    for i := 0 to |lines|
      invariant totalPrice == StatedTotal(lines[..i])
      invariant items == ItemsOf(lines[..i], dateStr, storeName)
    {
      var line := lines[i];
      ItemsOfPrefix(lines, i, dateStr, storeName);
      StatedTotalPrefix(lines, i);
      if Contains(line, "合計") || Contains(Lower(line), "total") || Contains(line, "合 計") {
        assert LineItems(line, dateStr, storeName) == [];
        var m := FindPrice(line);
        if m.Some? {
          totalPrice := CleanPrice(line[m.value.0..m.value.1]);
        }
        continue;
      }
      var m := MatchItem(line);
      if m.Some? {
        var itemName := Strip(line[..m.value.nameEnd]);
        if |itemName| > 1 && !IsIgnoredName(itemName) {
          var item := LineItem(dateStr, storeName, itemName,
                               CleanPrice(line[m.value.amountStart..m.value.amountEnd]));
          assert LineItems(line, dateStr, storeName) == [item];
          items := items + [item];
        } else {
          assert LineItems(line, dateStr, storeName) == [];
        }
      } else {
        assert LineItems(line, dateStr, storeName) == [];
      }
    }
    assert lines[..|lines|] == lines;
  }

  /** Parses OCR text as the source does: date search, store loop, one pass over the lines,
      then the sum, the consistency flag and the fallback total. */
  method ParseReceiptText(text: string) returns (r: ReceiptRecord)
    ensures r == Receipt(text)
  {
    var lines := Lines(text);
    var dateStr := UnknownDate;
    var dateMatch := FindDate(text);
    if dateMatch.Some? {
      dateStr := text[dateMatch.value.0..dateMatch.value.1];
    }
    var storeName := PickStore(lines);
    var totalPrice, items := ScanLines(lines, dateStr, storeName);
    var calculatedSum := SumAmounts(items);

    var isValidSum := if totalPrice > 0 then calculatedSum == totalPrice else true;
    if totalPrice == 0 {
      totalPrice := calculatedSum;
    }
    r := ReceiptRecord(storeName, dateStr, items, totalPrice, isValidSum);
  }
}
