/** Python string primitives the receipt parser relies on: whitespace, `strip`,
    `split('\n')`, substring tests and `lower()`. */
module Text {

  /** Python's `str.isspace()`; the regex class `\s` on a str matches the same code points. */
  predicate IsSpace(c: char) {
    ('\t' <= c <= '\r') || ('\U{1C}' <= c <= '\U{1F}') || c == ' ' || c == '\U{85}' || c == '\U{A0}'
    || c == '\U{1680}' || ('\U{2000}' <= c <= '\U{200A}') || c == '\U{2028}' || c == '\U{2029}'
    || c == '\U{202F}' || c == '\U{205F}' || c == '\U{3000}'
  }

  /** The regex class `\d`: ASCII digits and the full-width digits of Japanese text. */
  predicate IsDigit(c: char) {
    ('0' <= c <= '9') || ('０' <= c <= '９')
  }

  predicate AllSpace(s: string) {
    forall i :: 0 <= i < |s| ==> IsSpace(s[i])
  }

  /** Number of whitespace characters at the front of `s`. */
  function LeadingSpace(s: string): (n: nat)
    ensures n <= |s|
    ensures forall i :: 0 <= i < n ==> IsSpace(s[i])
    ensures n < |s| ==> !IsSpace(s[n])
  {
    if s == [] || !IsSpace(s[0]) then 0 else 1 + LeadingSpace(s[1..])
  }

  /** Number of whitespace characters at the back of `s`. */
  function TrailingSpace(s: string): (n: nat)
    ensures n <= |s|
    ensures forall i :: |s| - n <= i < |s| ==> IsSpace(s[i])
    ensures n < |s| ==> !IsSpace(s[|s| - n - 1])
  {
    if s == [] || !IsSpace(s[|s| - 1]) then 0 else 1 + TrailingSpace(s[..|s| - 1])
  }

  /** Python's `s.strip()`: `s` without its leading and trailing whitespace. */
  function Strip(s: string): (r: string)
    ensures r == [] <==> AllSpace(s)
    ensures r != [] ==> !IsSpace(r[0]) && !IsSpace(r[|r| - 1])
  {
    var t := s[LeadingSpace(s)..];
    t[..|t| - TrailingSpace(t)]
  }

  /** `strip()` removes only whitespace, and only at the two ends: `s` is a whitespace
      prefix of length `LeadingSpace(s)`, then `Strip(s)`, then a whitespace suffix. */
  lemma {:induction false} StripRemovesOnlyEnds(s: string)
    ensures LeadingSpace(s) + |Strip(s)| <= |s|
    ensures s == s[..LeadingSpace(s)] + Strip(s) + s[LeadingSpace(s) + |Strip(s)|..]
    ensures AllSpace(s[..LeadingSpace(s)]) && AllSpace(s[LeadingSpace(s) + |Strip(s)|..])
  {
    StripIsMiddle(s);
    StripSuffixIsSpace(s);
  }

  lemma {:induction false} StripIsMiddle(s: string)
    ensures LeadingSpace(s) + |Strip(s)| <= |s|
    ensures s == s[..LeadingSpace(s)] + Strip(s) + s[LeadingSpace(s) + |Strip(s)|..]
  {
    var a := LeadingSpace(s);
    var t := s[a..];
    var n := |t| - TrailingSpace(t);
    assert Strip(s) == s[a..a + n];
    SliceThree(s, a, a + n);
  }

  lemma SliceThree(s: string, a: nat, b: nat)
    requires a <= b <= |s|
    ensures s == s[..a] + s[a..b] + s[b..]
  {
  }

  lemma {:induction false} StripSuffixIsSpace(s: string)
    ensures LeadingSpace(s) + |Strip(s)| <= |s|
    ensures AllSpace(s[LeadingSpace(s) + |Strip(s)|..])
  {
    var a := LeadingSpace(s);
    var t := s[a..];
    var n := |t| - TrailingSpace(t);
    assert Strip(s) == t[..n];
    assert t[n..] == s[a + n..];
  }

  /** A string that `strip()` leaves alone: empty, or with non-space ends. */
  predicate IsStripped(s: string) {
    s == [] || (!IsSpace(s[0]) && !IsSpace(s[|s| - 1]))
  }

  lemma {:induction false} StripStripped(s: string)
    requires IsStripped(s)
    ensures Strip(s) == s
  {
    assert LeadingSpace(s) == 0;
    if s != [] {
      assert TrailingSpace(s) == 0;
    }
  }

  /** Python's `s.split('\n')`: the pieces between newline characters (never empty). */
  function SplitLines(s: string): (parts: seq<string>)
    ensures |parts| >= 1
    ensures forall p <- parts :: '\n' !in p
  {
    if s == [] then [""]
    else
      var init := SplitLines(s[..|s| - 1]);
      var c := s[|s| - 1];
      if c == '\n' then init + [""]
      else init[..|init| - 1] + [init[|init| - 1] + [c]]
  }

  /** Python's `'\n'.join(parts)`, the inverse of `SplitLines`. */
  function JoinLines(parts: seq<string>): string
    requires |parts| >= 1
  {
    if |parts| == 1 then parts[0] else JoinLines(parts[..|parts| - 1]) + "\n" + parts[|parts| - 1]
  }

  lemma {:induction false} JoinLinesExtendLast(parts: seq<string>, c: char)
    requires |parts| >= 1
    ensures JoinLines(parts[..|parts| - 1] + [parts[|parts| - 1] + [c]]) == JoinLines(parts) + [c]
  {
    var n := |parts|;
    var q := parts[..n - 1] + [parts[n - 1] + [c]];
    assert q[..n - 1] == parts[..n - 1];
  }

  /** Joining the pieces of a split gives back the text. */
  lemma {:induction false} JoinSplit(s: string)
    ensures JoinLines(SplitLines(s)) == s
  {
    if s != [] {
      var init := SplitLines(s[..|s| - 1]);
      JoinSplit(s[..|s| - 1]);
      var c := s[|s| - 1];
      if c == '\n' {
        assert (init + [""])[..|init|] == init;
      } else {
        JoinLinesExtendLast(init, c);
      }
      assert s == s[..|s| - 1] + [c];
    }
  }

  lemma {:induction false} SplitAppendPlain(a: string, b: string)
    requires '\n' !in b
    ensures var p := SplitLines(a);
            SplitLines(a + b) == p[..|p| - 1] + [p[|p| - 1] + b]
    decreases |b|
  {
    var p := SplitLines(a);
    if b == [] {
      assert a + b == a;
      assert p[|p| - 1] + b == p[|p| - 1];
      assert p == p[..|p| - 1] + [p[|p| - 1]];
    } else {
      var b' := b[..|b| - 1];
      var c := b[|b| - 1];
      var q := p[..|p| - 1] + [p[|p| - 1] + b'];
      assert SplitLines(a + b') == q by {
        assert '\n' !in b' by {
          assert forall x <- b' :: x in b;
        }
        SplitAppendPlain(a, b');
      }
      assert SplitLines(a + b) == q[..|q| - 1] + [q[|q| - 1] + [c]] by {
        assert c != '\n' by {
          assert c in b;
        }
        assert (a + b)[..|a + b| - 1] == a + b';
        assert (a + b)[|a + b| - 1] == c;
      }
      assert q[..|q| - 1] == p[..|p| - 1];
      assert p[|p| - 1] + b' + [c] == p[|p| - 1] + b;
    }
  }

  /** Splitting a join of newline-free pieces gives back the pieces. */
  lemma {:induction false} SplitJoin(parts: seq<string>)
    requires |parts| >= 1
    requires forall p <- parts :: '\n' !in p
    ensures SplitLines(JoinLines(parts)) == parts
  {
    var n := |parts|;
    if n == 1 {
      SplitJoinOne(parts[0]);
      assert [parts[0]] == parts;
    } else {
      var init, last := parts[..n - 1], parts[n - 1];
      assert SplitLines(JoinLines(init)) == init by {
        assert forall p <- init :: p in parts;
        SplitJoin(init);
      }
      assert '\n' !in last by {
        assert last in parts;
      }
      SplitJoinStep(parts);
    }
  }

  lemma {:induction false} SplitJoinOne(p: string)
    requires '\n' !in p
    ensures SplitLines(JoinLines([p])) == [p]
  {
    SplitAppendPlain("", p);
    assert "" + p == p;
  }

  /** Appending a newline and a newline-free piece to a join appends that piece to its split. */
  lemma {:induction false} SplitJoinStep(parts: seq<string>)
    requires |parts| >= 2
    requires SplitLines(JoinLines(parts[..|parts| - 1])) == parts[..|parts| - 1]
    requires '\n' !in parts[|parts| - 1]
    ensures SplitLines(JoinLines(parts)) == parts
  {
    var init, last := parts[..|parts| - 1], parts[|parts| - 1];
    var a := JoinLines(init) + "\n";
    assert JoinLines(parts) == a + last;
    assert SplitLines(a) == init + [""] by {
      assert a[..|a| - 1] == JoinLines(init);
    }
    SplitAppendPlain(a, last);
    assert (init + [""])[..|init|] == init;
    assert "" + last == last;
    assert init + [last] == parts;
  }

  /** The non-blank stripped pieces, in order: `[p.strip() for p in parts if p.strip()]`. */
  function NonBlank(parts: seq<string>): (lines: seq<string>)
    ensures |lines| <= |parts|
    ensures forall l <- lines :: l != [] && IsStripped(l)
    ensures lines == [] <==> forall p <- parts :: AllSpace(p)
  {
    if parts == [] then []
    else
      var rest := NonBlank(parts[1..]);
      assert forall p <- parts[1..] :: p in parts;
      var l := Strip(parts[0]);
      if l == [] then rest else [l] + rest
  }

  /** One piece is kept, stripped, exactly when it is not blank. */
  lemma NonBlankOne(p: string)
    ensures NonBlank([p]) == if AllSpace(p) then [] else [Strip(p)]
  {
    assert [p][1..] == [];
  }

  /** The filter works piece by piece: the kept lines of two blocks of pieces are those of the
      first block followed by those of the second, so it keeps the pieces' order. */
  lemma {:induction false} NonBlankAppend(a: seq<string>, b: seq<string>)
    ensures NonBlank(a + b) == NonBlank(a) + NonBlank(b)
  {
    if a == [] {
      assert a + b == b;
    } else {
      assert (a + b)[0] == a[0];
      assert (a + b)[1..] == a[1..] + b;
      NonBlankAppend(a[1..], b);
    }
  }

  /** The lines the parser works on: the text split at newlines, stripped, blank lines dropped. */
  function Lines(text: string): seq<string>
  {
    NonBlank(SplitLines(text))
  }

  /** The lines of a text made of newline-free pieces joined by newlines are exactly the
      non-blank pieces, stripped, in order. */
  lemma {:induction false} LinesOfJoin(parts: seq<string>)
    requires |parts| >= 1
    requires forall p <- parts :: '\n' !in p
    ensures Lines(JoinLines(parts)) == NonBlank(parts)
  {
    SplitJoin(parts);
  }

  lemma {:induction false} AllSpaceConcat(x: string, y: string)
    ensures AllSpace(x + y) <==> AllSpace(x) && AllSpace(y)
  {
    if AllSpace(x) && AllSpace(y) {
      forall i | 0 <= i < |x + y| ensures IsSpace((x + y)[i]) {
        if i >= |x| { assert (x + y)[i] == y[i - |x|]; }
      }
    }
    if AllSpace(x + y) {
      forall i | 0 <= i < |x| ensures IsSpace(x[i]) {
        assert (x + y)[i] == x[i];
      }
      forall i | 0 <= i < |y| ensures IsSpace(y[i]) {
        assert (x + y)[|x| + i] == y[i];
      }
    }
  }

  lemma {:induction false} JoinAllSpace(parts: seq<string>)
    requires |parts| >= 1
    ensures AllSpace(JoinLines(parts)) <==> forall p <- parts :: AllSpace(p)
  {
    var n := |parts|;
    if n > 1 {
      var init := parts[..n - 1];
      JoinAllSpace(init);
      AllSpaceConcat(JoinLines(init), "\n");
      AllSpaceConcat(JoinLines(init) + "\n", parts[n - 1]);
      assert AllSpace("\n");
      assert forall p <- parts :: p in init || p == parts[n - 1];
      assert forall p <- init :: p in parts;
    }
  }

  /** A text has no lines exactly when every one of its characters is whitespace. */
  lemma {:induction false} LinesEmptyIffBlank(text: string)
    ensures Lines(text) == [] <==> AllSpace(text)
  {
    JoinSplit(text);
    JoinAllSpace(SplitLines(text));
  }

  /** Python's `sub in s`. */
  predicate Contains(s: string, sub: string) {
    exists i | 0 <= i <= |s| :: sub <= s[i..]
  }

  /** `str.lower()` on one character; only ASCII letters are mapped. */
  function LowerChar(c: char): char {
    if 'A' <= c <= 'Z' then (c as int + 32) as char else c
  }

  /** `str.lower()`, character by character. */
  function Lower(s: string): string
  {
    seq(|s|, i requires 0 <= i < |s| => LowerChar(s[i]))
  }
}
