/** The Python string built-ins the collector relies on, stated over
    `seq<char>`: `str.isspace`, `strip`, `rstrip`, `split`, `join`, the
    substring test `in`, the digit filter `re.sub(r'[^0-9]', '', s)` and the
    code-point order that `sorted` uses on strings. */
module PyStr {

  type String = seq<char>

  /** Python's `str.isspace()` for one character: TAB, LF, VT, FF, CR, the
      separators FS, GS, RS and US, SPACE, NEL, NBSP, and the Unicode space
      separators. */
  predicate IsSpace(c: char) {
    ('\U{0009}' <= c <= '\U{000D}') || ('\U{001C}' <= c <= '\U{0020}')
    || c == '\U{0085}' || c == '\U{00A0}' || c == '\U{1680}'
    || ('\U{2000}' <= c <= '\U{200A}') || c == '\U{2028}' || c == '\U{2029}'
    || c == '\U{202F}' || c == '\U{205F}' || c == '\U{3000}'
  }

  /** `s.lstrip()`: drops the leading whitespace and nothing else. */
  function LStrip(s: String): (r: String)
    ensures |r| <= |s| && r == s[|s| - |r|..]
    ensures forall i :: 0 <= i < |s| - |r| ==> IsSpace(s[i])
    ensures r == [] || !IsSpace(r[0])
  {
    if s != [] && IsSpace(s[0]) then
      var r := LStrip(s[1..]);
      assert forall i :: 1 <= i < |s| ==> s[i] == s[1..][i - 1];
      r
    else s
  }

  /** `s.rstrip()`: drops the trailing whitespace and nothing else. */
  function RStrip(s: String): (r: String)
    ensures |r| <= |s| && r == s[..|r|]
    ensures forall i :: |r| <= i < |s| ==> IsSpace(s[i])
    ensures r == [] || !IsSpace(r[|r| - 1])
  {
    if s != [] && IsSpace(s[|s| - 1]) then RStrip(s[..|s| - 1]) else s
  }

  /** `s.strip()`. */
  function Strip(s: String): String {
    RStrip(LStrip(s))
  }

  /** Where the slice that `strip` keeps starts. */
  function StripStart(s: String): (lead: nat)
    ensures lead <= |s|
  {
    |s| - |LStrip(s)|
  }

  lemma StripSlice(s: String)
    ensures |Strip(s)| <= |s| - StripStart(s)
    ensures Strip(s) == s[StripStart(s)..StripStart(s) + |Strip(s)|]
  {
    var l := LStrip(s);
    assert l == s[StripStart(s)..];
    assert Strip(s) == l[..|Strip(s)|];
  }

  lemma StripDropsOnlySpace(s: String)
    ensures forall i :: 0 <= i < StripStart(s) ==> IsSpace(s[i])
    ensures forall i :: StripStart(s) + |Strip(s)| <= i < |s| ==> IsSpace(s[i])
  {
    var l := LStrip(s);
    var lead := StripStart(s);
    forall i | lead + |Strip(s)| <= i < |s|
      ensures IsSpace(s[i])
    {
      assert s[i] == l[i - lead];
    }
  }

  lemma StripTrimmed(s: String)
    ensures Strip(s) == [] || (!IsSpace(Strip(s)[0]) && !IsSpace(Strip(s)[|Strip(s)| - 1]))
  {
    var l := LStrip(s);
    var r := RStrip(l);
    if r != [] {
      assert r == l[..|r|];
      assert r[0] == l[0];
    }
  }

  /** `strip` keeps one slice of the text, which neither starts nor ends
      with whitespace, and drops only whitespace around it. */
  lemma StripIsTrimmedSlice(s: String)
    ensures var r, lead := Strip(s), StripStart(s);
            && lead + |r| <= |s| && r == s[lead..lead + |r|]
            && (forall i :: 0 <= i < lead ==> IsSpace(s[i]))
            && (forall i :: lead + |r| <= i < |s| ==> IsSpace(s[i]))
            && (r == [] || (!IsSpace(r[0]) && !IsSpace(r[|r| - 1])))
  {
    StripSlice(s);
    StripDropsOnlySpace(s);
    StripTrimmed(s);
  }

  /** `s.split(sep)` for a one-character separator: every piece between two
      separators, so there is always at least one piece. */
  function Split(s: String, sep: char): (parts: seq<String>)
    ensures |parts| >= 1
    ensures forall k :: 0 <= k < |parts| ==> sep !in parts[k]
  {
    if s == [] then [[]]
    else
      var rest := Split(s[1..], sep);
      if s[0] == sep then [[]] + rest
      else [[s[0]] + rest[0]] + rest[1..]
  }

  /** `sep.join(parts)`. */
  function Join(parts: seq<String>, sep: char): String {
    if |parts| == 0 then []
    else if |parts| == 1 then parts[0]
    else parts[0] + [sep] + Join(parts[1..], sep)
  }

  /** Joining the pieces of a split gives the text back. */
  lemma {:induction false} JoinSplit(s: String, sep: char)
    ensures Join(Split(s, sep), sep) == s
  {
    if s != [] {
      JoinSplit(s[1..], sep);
      var rest := Split(s[1..], sep);
      if s[0] != sep && |rest| > 1 {
        assert Split(s, sep)[1..] == rest[1..];
      }
    }
  }

  /** A text without the separator is a single piece. */
  lemma {:induction false} SplitWithoutSep(a: String, sep: char)
    requires sep !in a
    ensures Split(a, sep) == [a]
  {
    if a != [] {
      assert a[0] in a;
      SplitWithoutSep(a[1..], sep);
      assert Split(a, sep) == [[a[0]] + a[1..]];
      assert [a[0]] + a[1..] == a;
    }
  }

  /** A separator ends the first piece; what follows is split on its own. */
  lemma {:induction false} SplitAtFirstSep(a: String, sep: char, b: String)
    requires sep !in a
    ensures Split(a + [sep] + b, sep) == [a] + Split(b, sep)
  {
    if a != [] {
      assert a[0] in a;
      assert (a + [sep] + b)[0] == a[0];
      assert (a + [sep] + b)[1..] == a[1..] + [sep] + b;
      SplitAtFirstSep(a[1..], sep, b);
      var rest := Split(a[1..] + [sep] + b, sep);
      assert rest == [a[1..]] + Split(b, sep);
      assert Split(a + [sep] + b, sep) == [[a[0]] + rest[0]] + rest[1..];
      assert [a[0]] + a[1..] == a;
    } else {
      assert a + [sep] + b == [sep] + b;
    }
  }

  /** Splitting a join of separator-free pieces gives the pieces back. */
  lemma {:induction false} SplitJoin(parts: seq<String>, sep: char)
    requires |parts| >= 1
    requires forall k :: 0 <= k < |parts| ==> sep !in parts[k]
    ensures Split(Join(parts, sep), sep) == parts
  {
    if |parts| == 1 {
      SplitWithoutSep(parts[0], sep);
    } else {
      SplitJoin(parts[1..], sep);
      SplitAtFirstSep(parts[0], sep, Join(parts[1..], sep));
    }
  }

  /** Joining two or more pieces yields more than the last piece. */
  lemma {:induction false} JoinLongerThanLast(parts: seq<String>, sep: char)
    requires |parts| > 1
    ensures |Join(parts, sep)| > |parts[|parts| - 1]|
  {
    if |parts| > 2 {
      JoinLongerThanLast(parts[1..], sep);
    }
  }

  /** The last piece of a split is the tail of the text after its last
      separator: a suffix, preceded by the separator unless it is everything. */
  lemma {:induction false} LastPieceIsTail(s: String, sep: char)
    ensures var parts := Split(s, sep);
            var last := parts[|parts| - 1];
            |last| <= |s| && last == s[|s| - |last|..]
            && (|last| < |s| ==> s[|s| - |last| - 1] == sep)
  {
    if s != [] {
      LastPieceIsTail(s[1..], sep);
      var rest := Split(s[1..], sep);
      var last := rest[|rest| - 1];
      if s[0] != sep && |rest| == 1 {
        assert Split(s, sep) == [[s[0]] + rest[0]];
        JoinSplit(s[1..], sep);
        assert last == s[1..];
        assert [s[0]] + s[1..] == s;
      } else {
        assert Split(s, sep)[|Split(s, sep)| - 1] == last;
        assert s[1..][|s| - 1 - |last|..] == s[|s| - |last|..];
        if |last| == |s| - 1 && s[0] != sep {
          JoinSplit(s[1..], sep);
          JoinLongerThanLast(rest, sep);
        }
      }
    }
  }

  /** Python's `keyword in line` on strings: `k` occurs as a contiguous slice. */
  predicate Contains(s: String, k: String) {
    k <= s || (s != [] && Contains(s[1..], k))
  }

  /** `Contains` agrees with the slice-based definition of a substring. */
  lemma {:induction false} ContainsAt(s: String, k: String)
    ensures Contains(s, k) <==> exists i :: 0 <= i <= |s| - |k| && k <= s[i..]
  {
    if k <= s {
      assert s[0..] == s;
    }
    if s != [] {
      ContainsAt(s[1..], k);
      if Contains(s[1..], k) {
        var i :| 0 <= i <= |s| - 1 - |k| && k <= s[1..][i..];
        assert s[1..][i..] == s[i + 1..];
      }
      if exists i :: 0 <= i <= |s| - |k| && k <= s[i..] {
        var i :| 0 <= i <= |s| - |k| && k <= s[i..];
        if i > 0 {
          assert s[1..][i - 1..] == s[i..];
        }
      }
    }
  }

  predicate IsDigit(c: char) {
    '0' <= c <= '9'
  }

  predicate AllDigits(s: String) {
    forall i :: 0 <= i < |s| ==> IsDigit(s[i])
  }

  /** `re.sub(r'[^0-9]', '', s)`: the ASCII digits of `s`, in order. */
  function Digits(s: String): (r: String)
    ensures AllDigits(r)
    ensures |r| <= |s|
  {
    if s == [] then []
    else if IsDigit(s[0]) then [s[0]] + Digits(s[1..])
    else Digits(s[1..])
  }

  /** The digit filter keeps every digit, as often as it occurs, and drops
      every other character. */
  lemma {:induction false} DigitsCounts(s: String)
    ensures forall c :: multiset(Digits(s))[c] == if IsDigit(c) then multiset(s)[c] else 0
  {
    if s != [] {
      DigitsCounts(s[1..]);
      assert s == [s[0]] + s[1..];
    }
  }

  /** The digit filter distributes over concatenation. */
  lemma {:induction false} DigitsAppend(a: String, b: String)
    ensures Digits(a + b) == Digits(a) + Digits(b)
  {
    if a != [] {
      assert (a + b)[0] == a[0];
      assert (a + b)[1..] == a[1..] + b;
      DigitsAppend(a[1..], b);
      if IsDigit(a[0]) {
        assert Digits(a + b) == [a[0]] + Digits(a[1..] + b);
      } else {
        assert Digits(a + b) == Digits(a[1..] + b);
      }
    } else {
      assert a + b == b;
    }
  }

  /** The digit filter keeps a text of digits whole, and only such a text. */
  lemma {:induction false} DigitsKeepsDigits(s: String)
    ensures Digits(s) == s <==> AllDigits(s)
  {
    if s != [] {
      DigitsKeepsDigits(s[1..]);
      if !IsDigit(s[0]) {
        assert |Digits(s)| <= |s[1..]| < |s|;
      }
    }
  }

  /** Python's `a <= b` on strings: lexicographic by code point. */
  predicate LexLe(a: String, b: String) {
    a == [] || (b != [] && (a[0] < b[0] || (a[0] == b[0] && LexLe(a[1..], b[1..]))))
  }

  lemma {:induction false} LexTotal(a: String, b: String)
    ensures LexLe(a, b) || LexLe(b, a)
  {
    if a != [] && b != [] && a[0] == b[0] {
      LexTotal(a[1..], b[1..]);
    }
  }

  lemma {:induction false} LexAntisymmetric(a: String, b: String)
    requires LexLe(a, b) && LexLe(b, a)
    ensures a == b
  {
    if a != [] && b != [] {
      LexAntisymmetric(a[1..], b[1..]);
      assert a == [a[0]] + a[1..] && b == [b[0]] + b[1..];
    }
  }

  lemma {:induction false} LexTransitive(a: String, b: String, c: String)
    requires LexLe(a, b) && LexLe(b, c)
    ensures LexLe(a, c)
  {
    if a != [] && b != [] && c != [] && a[0] == b[0] == c[0] {
      LexTransitive(a[1..], b[1..], c[1..]);
    }
  }

  predicate Sorted(s: seq<String>) {
    forall i :: 0 < i < |s| ==> LexLe(s[i - 1], s[i])
  }

  /** The head of a sorted list is its least element. */
  lemma {:induction false} SortedHeadIsLeast(s: seq<String>, i: nat)
    requires Sorted(s) && i < |s|
    ensures LexLe(s[0], s[i])
  {
    if i == 0 {
      LexTotal(s[0], s[0]);
    } else {
      SortedHeadIsLeast(s, i - 1);
      LexTransitive(s[0], s[i - 1], s[i]);
    }
  }

  lemma MultisetOfTail(s: seq<String>)
    requires s != []
    ensures multiset(s[1..]) == multiset(s) - multiset{s[0]}
  {
    assert s == [s[0]] + s[1..];
  }

  /** A list of strings has exactly one sorted arrangement. */
  lemma {:induction false} SortedPermutationUnique(a: seq<String>, b: seq<String>)
    requires Sorted(a) && Sorted(b) && multiset(a) == multiset(b)
    ensures a == b
    decreases |a|
  {
    if a != [] {
      assert |b| == |a| by { assert |multiset(a)| == |multiset(b)|; }
      assert a[0] in multiset(b) && b[0] in multiset(a);
      var i :| 0 <= i < |b| && b[i] == a[0];
      var j :| 0 <= j < |a| && a[j] == b[0];
      SortedHeadIsLeast(b, i);
      SortedHeadIsLeast(a, j);
      LexAntisymmetric(a[0], b[0]);
      MultisetOfTail(a);
      MultisetOfTail(b);
      SortedPermutationUnique(a[1..], b[1..]);
    }
  }

  /** Places `x` in a sorted list. */
  function Insert(x: String, s: seq<String>): (r: seq<String>)
    requires Sorted(s)
    ensures Sorted(r)
    ensures multiset(r) == multiset(s) + multiset{x}
    ensures r[0] == x || (s != [] && r[0] == s[0])
  {
    if s == [] || LexLe(x, s[0]) then [x] + s
    else
      LexTotal(x, s[0]);
      assert s == [s[0]] + s[1..];
      [s[0]] + Insert(x, s[1..])
  }

  /** `sorted(s)` on a list of strings: an ascending permutation. */
  function Sort(s: seq<String>): (r: seq<String>)
    ensures Sorted(r)
    ensures multiset(r) == multiset(s)
  {
    if s == [] then []
    else
      assert s == [s[0]] + s[1..];
      Insert(s[0], Sort(s[1..]))
  }
}
