/**
 The string processing the generator's driver applies to its console input:
 Python's `str.isspace`, `str.strip()` and `str.split()` (both with no argument),
 and `str.endswith`, which the template dispatch uses.
 */
module Text {

  /** Python's `str.isspace` on one character: the characters that `strip()` and
      `split()` with no argument treat as whitespace. */
  predicate IsSpace(c: char)
  {
    var n := c as int;
    (0x09 <= n <= 0x0D) || (0x1C <= n <= 0x20) || n == 0x85 || n == 0xA0 ||
    n == 0x1680 || (0x2000 <= n <= 0x200A) || n == 0x2028 || n == 0x2029 ||
    n == 0x202F || n == 0x205F || n == 0x3000
  }

  /** Among the ASCII characters the whitespace ones are tab, line feed, vertical
      tab, form feed, carriage return, the four information separators 0x1C to
      0x1F, and the blank. */
  lemma AsciiSpaces(c: char)
    requires c as int < 0x80
    ensures IsSpace(c) <==> c as int in {0x09, 0x0A, 0x0B, 0x0C, 0x0D, 0x1C, 0x1D, 0x1E, 0x1F, 0x20}
  {
  }

  predicate AllSpace(s: string) {
    forall i :: 0 <= i < |s| ==> IsSpace(s[i])
  }

  predicate NoSpace(s: string) {
    forall i :: 0 <= i < |s| ==> !IsSpace(s[i])
  }

  /** Python's `s.endswith(suffix)`: `s` is some text followed by `suffix`. */
  predicate EndsWith(s: string, suffix: string) {
    |suffix| <= |s| && s[|s| - |suffix|..] == suffix
  }

  /** `EndsWith` holds exactly when `s` is some text followed by `suffix`. */
  lemma EndsWithConcat(s: string, suffix: string)
    ensures EndsWith(s, suffix) <==> exists t :: s == t + suffix
  {
    if EndsWith(s, suffix) {
      var t := s[..|s| - |suffix|];
      assert s == t + suffix;
    }
    if exists t :: s == t + suffix {
      var t :| s == t + suffix;
      assert s[|s| - |suffix|..] == suffix;
    }
  }

  /** Number of whitespace characters at the front of `s`. */
  function LeadingSpaces(s: string): (n: nat)
    ensures n <= |s| && AllSpace(s[..n])
    ensures n < |s| ==> !IsSpace(s[n])
  {
    if s == [] || !IsSpace(s[0]) then 0 else 1 + LeadingSpaces(s[1..])
  }

  /** Number of whitespace characters at the end of `s`. */
  function TrailingSpaces(s: string): (n: nat)
    ensures n <= |s| && AllSpace(s[|s| - n..])
    ensures n < |s| ==> !IsSpace(s[|s| - n - 1])
  {
    if s == [] || !IsSpace(s[|s| - 1]) then 0 else 1 + TrailingSpaces(s[..|s| - 1])
  }

  /** Length of the run of non-whitespace characters at the front of `s`. */
  function WordLength(s: string): (n: nat)
    ensures n <= |s| && NoSpace(s[..n])
    ensures n < |s| ==> IsSpace(s[n])
  {
    if s == [] || IsSpace(s[0]) then 0 else 1 + WordLength(s[1..])
  }

  /** Python's `s.strip()`: `s` without its leading and trailing whitespace. The
      result is the slice of `s` that starts after the leading whitespace, and
      everything after it is whitespace too; it is empty exactly when `s` is all
      whitespace, and otherwise starts and ends with a non-whitespace character. */
  function Strip(s: string): (r: string)
    ensures LeadingSpaces(s) + |r| <= |s|
    ensures r == s[LeadingSpaces(s)..LeadingSpaces(s) + |r|]
    ensures AllSpace(s[..LeadingSpaces(s)]) && AllSpace(s[LeadingSpaces(s) + |r|..])
    ensures r == [] <==> AllSpace(s)
    ensures r != [] ==> !IsSpace(r[0]) && !IsSpace(r[|r| - 1])
  {
    var i := LeadingSpaces(s);
    var t := s[i..];
    var r := t[..|t| - TrailingSpaces(t)];
    assert t != [] ==> !IsSpace(t[0]);
    assert t[|t| - |t|..] == t;
    assert s[..|s|] == s;
    r
  }

  /** Python's `s.split()` with no argument: the maximal runs of non-whitespace
      characters of `s`, in order. No word is empty or holds whitespace, and there is
      no word exactly when `s` is all whitespace. */
  function Split(s: string): (words: seq<string>)
    ensures forall k :: 0 <= k < |words| ==> words[k] != [] && NoSpace(words[k])
    ensures words == [] <==> AllSpace(s)
    decreases |s|
  {
    var i := LeadingSpaces(s);
    if i == |s| then
      assert s[..i] == s;
      []
    else
      var t := s[i..];
      var n := WordLength(t);
      [t[..n]] + Split(t[n..])
  }

  /** Joining with the empty separator puts the items side by side. */
  lemma JoinNothing(w: string, ws: seq<string>)
    ensures Join("", [w] + ws) == w + Join("", ws)
  {
    JoinCons("", w, ws);
    if ws == [] {
      assert w + [] == w;
    } else {
      assert w + "" == w;
    }
  }

  /** `s` with every whitespace character removed. */
  function DropSpaces(s: string): string {
    if s == [] then []
    else if IsSpace(s[0]) then DropSpaces(s[1..])
    else [s[0]] + DropSpaces(s[1..])
  }

  /** Python's `sep.join(xs)`: the items in order with `sep` between neighbours. */
  function Join(sep: string, xs: seq<string>): string
    decreases |xs|
  {
    if xs == [] then []
    else if |xs| == 1 then xs[0]
    else xs[0] + sep + Join(sep, xs[1..])
  }

  /** What `sep.join(xs)` looks like from outside: nothing for no items; otherwise
      it starts with the first item and ends with the last, and with two or more
      items the separator follows the first. */
  lemma {:induction false} JoinParts(sep: string, xs: seq<string>)
    ensures xs == [] ==> Join(sep, xs) == []
    ensures xs != [] ==> |xs[0]| <= |Join(sep, xs)| && Join(sep, xs)[..|xs[0]|] == xs[0]
    ensures xs != [] ==>
      |xs[|xs| - 1]| <= |Join(sep, xs)| &&
      Join(sep, xs)[|Join(sep, xs)| - |xs[|xs| - 1]|..] == xs[|xs| - 1]
    ensures |xs| >= 2 ==>
      |xs[0]| + |sep| <= |Join(sep, xs)| && Join(sep, xs)[|xs[0]|..|xs[0]| + |sep|] == sep
    decreases |xs|
  {
    if |xs| == 1 {
      assert xs[0][..|xs[0]|] == xs[0] && xs[0][|xs[0]| - |xs[0]|..] == xs[0];
    } else if |xs| >= 2 {
      var tail := Join(sep, xs[1..]);
      var r := xs[0] + sep + tail;
      JoinParts(sep, xs[1..]);
      assert xs[1..][|xs[1..]| - 1] == xs[|xs| - 1];
      assert r[|r| - |xs[|xs| - 1]|..] == tail[|tail| - |xs[|xs| - 1]|..];
    }
  }

  /** Joining in front of one more item. */
  lemma JoinCons(sep: string, w: string, ws: seq<string>)
    ensures Join(sep, [w] + ws) == if ws == [] then w else w + sep + Join(sep, ws)
  {
    assert ([w] + ws)[1..] == ws;
  }

  lemma {:induction false} DropSpacesAppend(a: string, b: string)
    ensures DropSpaces(a + b) == DropSpaces(a) + DropSpaces(b)
    decreases |a|
  {
    if a == [] {
      assert a + b == b;
    } else {
      var ab := a + b;
      assert ab != [] && ab[0] == a[0] && ab[1..] == a[1..] + b;
      DropSpacesAppend(a[1..], b);
      if IsSpace(a[0]) {
        assert DropSpaces(ab) == DropSpaces(a[1..] + b);
      } else {
        assert DropSpaces(ab) == [a[0]] + DropSpaces(a[1..] + b);
        assert [a[0]] + (DropSpaces(a[1..]) + DropSpaces(b))
            == ([a[0]] + DropSpaces(a[1..])) + DropSpaces(b);
      }
    }
  }

  lemma {:induction false} DropSpacesAllSpace(s: string)
    requires AllSpace(s)
    ensures DropSpaces(s) == []
    decreases |s|
  {
    if s != [] { DropSpacesAllSpace(s[1..]); }
  }

  lemma {:induction false} DropSpacesNoSpace(s: string)
    requires NoSpace(s)
    ensures DropSpaces(s) == s
    decreases |s|
  {
    if s != [] {
      DropSpacesNoSpace(s[1..]);
      assert s == [s[0]] + s[1..];
    }
  }

  /** `split()` loses nothing but whitespace: its words, put back together, are the
      non-whitespace characters of `s` in their original order. */
  lemma {:induction false} SplitKeepsText(s: string)
    ensures Join("", Split(s)) == DropSpaces(s)
    decreases |s|
  {
    var i := LeadingSpaces(s);
    if i == |s| {
      assert s[..i] == s;
      DropSpacesAllSpace(s);
    } else {
      var t := s[i..];
      var n := WordLength(t);
      var rest := t[n..];
      SplitKeepsText(rest);
      SplitStep(s);
      DropSpacesStep(s);
      JoinNothing(t[..n], Split(rest));
    }
  }

  /** One step of `split()` on an input that is not all whitespace. */
  lemma SplitStep(s: string)
    requires LeadingSpaces(s) < |s|
    ensures Split(s) == [s[LeadingSpaces(s)..][..WordLength(s[LeadingSpaces(s)..])]] +
                        Split(s[LeadingSpaces(s)..][WordLength(s[LeadingSpaces(s)..])..])
  {
  }

  /** The same step seen from the whitespace-free text. */
  lemma DropSpacesStep(s: string)
    requires LeadingSpaces(s) < |s|
    ensures DropSpaces(s) == s[LeadingSpaces(s)..][..WordLength(s[LeadingSpaces(s)..])] +
                             DropSpaces(s[LeadingSpaces(s)..][WordLength(s[LeadingSpaces(s)..])..])
  {
    var i := LeadingSpaces(s);
    var t := s[i..];
    var n := WordLength(t);
    ThreeParts(s, i, n);
    DropSpacesBlankWord(s[..i], t[..n], t[n..]);
  }

  lemma ThreeParts(s: string, i: nat, n: nat)
    requires i + n <= |s|
    ensures s == s[..i] + s[i..][..n] + s[i..][n..]
  {
  }

  lemma DropSpacesBlankWord(blank: string, word: string, rest: string)
    requires AllSpace(blank) && NoSpace(word)
    ensures DropSpaces(blank + word + rest) == word + DropSpaces(rest)
  {
    assert blank + word + rest == blank + (word + rest);
    DropSpacesAppend(blank, word + rest);
    DropSpacesAllSpace(blank);
    DropSpacesAppend(word, rest);
    DropSpacesNoSpace(word);
  }

  lemma {:induction false} WordLengthOf(a: string, b: string)
    requires NoSpace(a)
    requires b == [] || IsSpace(b[0])
    ensures WordLength(a + b) == |a|
    decreases |a|
  {
    if a != [] {
      assert (a + b)[1..] == a[1..] + b;
      WordLengthOf(a[1..], b);
    }
  }

  /** A single word splits to itself. */
  lemma SplitWord(w: string)
    requires w != [] && NoSpace(w)
    ensures Split(w) == [w]
  {
    assert LeadingSpaces(w) == 0 && w[0..] == w;
    WordLengthOf(w, []);
    assert w + [] == w;
    assert w[..|w|] == w && w[|w|..] == [];
  }

  lemma JoinHead(ws: seq<string>)
    requires |ws| > 0 && ws[0] != []
    ensures Join(" ", ws) != [] && Join(" ", ws)[0] == ws[0][0]
  {
  }

  /** Round trip: splitting words joined by single blanks gives the words back,
      provided none is empty and none holds whitespace (what `split()` returns). */
  lemma {:induction false} SplitJoinWords(ws: seq<string>)
    requires forall k :: 0 <= k < |ws| ==> ws[k] != [] && NoSpace(ws[k])
    ensures Split(Join(" ", ws)) == ws
    decreases |ws|
  {
    if ws == [] {
    } else if |ws| == 1 {
      SplitWord(ws[0]);
    } else {
      var rest := ws[1..];
      assert ws == [ws[0]] + rest;
      JoinCons(" ", ws[0], rest);
      JoinHead(rest);
      var tail := " " + Join(" ", rest);
      assert ws[0] + " " + Join(" ", rest) == ws[0] + tail;
      SplitWordFirst(ws[0], tail);
      assert tail[1..] == Join(" ", rest);
      SplitSkipSpace(tail);
      SplitJoinWords(rest);
    }
  }

  /** A whitespace character in front of the text is skipped by `split()`. */
  lemma SplitSkipSpace(x: string)
    requires x != [] && IsSpace(x[0])
    ensures Split(x) == Split(x[1..])
  {
    var y := x[1..];
    assert LeadingSpaces(x) == 1 + LeadingSpaces(y);
    assert x[LeadingSpaces(x)..] == y[LeadingSpaces(y)..];
  }

  /** `split()` cuts at every whitespace character: the words of `a`, a whitespace
      character, then `b` are the words of `a` followed by the words of `b`. No word
      spans the separator, and a run of several whitespace characters separates
      exactly as one does. */
  lemma SplitAtSpace(a: string, c: char, b: string)
    requires IsSpace(c)
    ensures Split(a + [c] + b) == Split(a) + Split(b)
  {
    var s := a + [c] + b;
    AroundOne(a, c, b);
    SplitAt(s, |a|);
  }

  /** `SplitAtSpace` for a whitespace character at position `i` of `s`. */
  lemma {:induction false} SplitAt(s: string, i: nat)
    requires i < |s| && IsSpace(s[i])
    ensures Split(s) == Split(s[..i]) + Split(s[i + 1..])
    decreases |s|
  {
    if i == 0 {
      SplitSkipSpace(s);
      assert Split(s[..0]) == [] by { assert AllSpace(s[..0]); }
    } else if IsSpace(s[0]) {
      SliceShift(s, 1, i);
      SplitAt(s[1..], i - 1);
      SplitAtBlank(s, i);
    } else {
      var n := WordLength(s);
      WordBefore(s, i);
      SliceShift(s, n, i);
      SplitAt(s[n..], i - n);
      SplitAtWord(s, i);
    }
  }

  /** The step of `SplitAt` when `s` starts with whitespace. */
  lemma SplitAtBlank(s: string, i: nat)
    requires 0 < i < |s| && IsSpace(s[i]) && IsSpace(s[0])
    requires Split(s[1..]) == Split(s[1..][..i - 1]) + Split(s[1..][i..])
    ensures Split(s) == Split(s[..i]) + Split(s[i + 1..])
  {
    SliceShift(s, 1, i);
    SplitSkipSpace(s);
    SplitSkipSpace(s[..i]);
  }

  /** The step of `SplitAt` when `s` starts with a word, which ends at or before
      position `i`. */
  lemma SplitAtWord(s: string, i: nat)
    requires i < |s| && IsSpace(s[i]) && !IsSpace(s[0])
    requires WordLength(s) <= i
    requires Split(s[WordLength(s)..]) ==
      Split(s[WordLength(s)..][..i - WordLength(s)]) + Split(s[WordLength(s)..][i - WordLength(s) + 1..])
    ensures Split(s) == Split(s[..i]) + Split(s[i + 1..])
  {
    var n := WordLength(s);
    SliceShift(s, n, i);
    assert LeadingSpaces(s) == 0 && s[0..] == s;
    SplitStep(s);
    SplitPrefixWord(s, i);
    Regroup(Split(s), s[..n], Split(s[n..]), Split(s[n..i]), Split(s[i + 1..]), Split(s[..i]));
  }

  /** Cutting the text after its first word leaves that word first. */
  lemma SplitPrefixWord(s: string, i: nat)
    requires s != [] && !IsSpace(s[0])
    requires WordLength(s) <= i <= |s|
    ensures Split(s[..i]) == [s[..WordLength(s)]] + Split(s[WordLength(s)..i])
  {
    var n := WordLength(s);
    SliceJoin(s, n, i);
    SplitWordFirst(s[..n], s[n..i]);
  }

  lemma Regroup(x: seq<string>, w: string, y: seq<string>, p: seq<string>, q: seq<string>, z: seq<string>)
    requires x == [w] + y && y == p + q && z == [w] + p
    ensures x == z + q
  {
  }

  /** A word that starts `s` ends at or before any whitespace character. */
  lemma WordBefore(s: string, i: nat)
    requires i < |s| && IsSpace(s[i]) && !IsSpace(s[0])
    ensures 1 <= WordLength(s) <= i
  {
  }

  lemma AroundOne(a: string, c: char, b: string)
    ensures (a + [c] + b)[..|a|] == a && (a + [c] + b)[|a|] == c && (a + [c] + b)[|a| + 1..] == b
  {
  }

  lemma SliceJoin(s: string, n: nat, i: nat)
    requires n <= i <= |s|
    ensures s[..i] == s[..n] + s[n..i]
    ensures n < i ==> s[n..i][0] == s[n]
  {
  }

  lemma SliceShift(s: string, n: nat, i: nat)
    requires n <= i < |s|
    ensures s[n..][..i - n] == s[n..i] == s[..i][n..]
    ensures s[n..][i - n] == s[i]
    ensures s[n..][i - n + 1..] == s[i + 1..]
  {
  }

  /** A word followed by text that does not continue it: the word comes first. */
  lemma SplitWordFirst(w: string, rest: string)
    requires w != [] && NoSpace(w)
    requires rest == [] || IsSpace(rest[0])
    ensures Split(w + rest) == [w] + Split(rest)
  {
    var s := w + rest;
    assert s[0] == w[0];
    assert LeadingSpaces(s) == 0 && s[0..] == s;
    WordLengthOf(w, rest);
    assert s[..|w|] == w && s[|w|..] == rest;
  }

  /** Stripping twice is stripping once. */
  lemma StripIdempotent(s: string)
    ensures Strip(Strip(s)) == Strip(s)
  {
    var r := Strip(s);
    if r != [] {
      assert LeadingSpaces(r) == 0;
      assert r[0..] == r;
      assert TrailingSpaces(r) == 0;
      assert r[..|r|] == r;
    }
  }
}
