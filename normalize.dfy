/** The line normaliser of the Publication 78 feed: `ignore_blank_space`
    right-strips every line and drops the blank ones, `_normalize_data` then
    drops the lines of foreign-registered organisations (those the pattern
    `.*FORGN(?:,[A-Z]{2,5})*$` matches). Both are lazy generators in the
    source; here they are functions on the whole sequence of lines. */
module Normalize {

  // ---------------------------------------------------------------------
  // str.rstrip()
  // ---------------------------------------------------------------------

  /** The characters `str.rstrip()` removes from a Python 2 byte string:
      space, tab, line feed, carriage return, vertical tab and form feed. */
  predicate IsSpace(c: char) {
    c == ' ' || c == '\t' || c == '\n' || c == '\r' || c == '\U{0B}' || c == '\U{0C}'
  }

  predicate EndsWithSpace(s: string) {
    |s| > 0 && IsSpace(s[|s| - 1])
  }

  /** `s.rstrip()`: a prefix of `s`, what it cut off is all whitespace, and it
      does not itself end in whitespace. Leading whitespace is kept. */
  function RStrip(s: string): (r: string)
    ensures r <= s
    ensures forall i :: |r| <= i < |s| ==> IsSpace(s[i])
    ensures !EndsWithSpace(r)
  {
    if EndsWithSpace(s) then RStrip(s[..|s| - 1]) else s
  }

  /** The three properties above determine the stripped line: it is the
      unique prefix that does not end in whitespace and is followed only by
      whitespace. */
  lemma RStripUnique(s: string, p: string)
    requires p <= s
    requires forall i :: |p| <= i < |s| ==> IsSpace(s[i])
    requires !EndsWithSpace(p)
    ensures RStrip(s) == p
  {
  }

  /** A line that does not end in whitespace is left as it is. */
  lemma RStripClean(s: string)
    requires !EndsWithSpace(s)
    ensures RStrip(s) == s
  {
  }

  /** Only trailing whitespace goes: `"   b   "` becomes `"   b"`. */
  lemma RStripKeepsLeadingSpace()
    ensures RStrip("   b   ") == "   b"
    ensures RStrip("e \t ") == "e"
  {
    RStripUnique("   b   ", "   b");
    RStripUnique("e \t ", "e");
  }

  // ---------------------------------------------------------------------
  // ignore_blank_space
  // ---------------------------------------------------------------------

  /** `ignore_blank_space`: every line right-stripped, in order, with the
      lines that strip to nothing left out. */
  function IgnoreBlankSpace(lines: seq<string>): (out: seq<string>)
    ensures |out| <= |lines|
    ensures forall j :: 0 <= j < |out| ==> out[j] != [] && !EndsWithSpace(out[j])
  {
    if lines == [] then []
    else
      var s := RStrip(lines[0]);
      (if s == [] then [] else [s]) + IgnoreBlankSpace(lines[1..])
  }

  /** The filter works line by line: feeding two files one after the other
      gives the two outputs one after the other. */
  lemma {:induction false} IgnoreBlankSpaceAppend(a: seq<string>, b: seq<string>)
    ensures IgnoreBlankSpace(a + b) == IgnoreBlankSpace(a) + IgnoreBlankSpace(b)
  {
    if a != [] {
      var s := RStrip(a[0]);
      var head: seq<string> := if s == [] then [] else [s];
      assert (a + b)[0] == a[0];
      assert (a + b)[1..] == a[1..] + b;
      IgnoreBlankSpaceAppend(a[1..], b);
      calc {
        IgnoreBlankSpace(a + b);
        head + IgnoreBlankSpace(a[1..] + b);
        head + (IgnoreBlankSpace(a[1..]) + IgnoreBlankSpace(b));
        (head + IgnoreBlankSpace(a[1..])) + IgnoreBlankSpace(b);
        IgnoreBlankSpace(a) + IgnoreBlankSpace(b);
      }
    } else {
      assert a + b == b;
    }
  }

  /** A line is in the output exactly when it is the non-empty stripped form
      of some input line. */
  lemma {:induction false} IgnoreBlankSpaceMembers(lines: seq<string>, x: string)
    ensures x in IgnoreBlankSpace(lines) <==>
            exists i :: 0 <= i < |lines| && x == RStrip(lines[i]) && x != []
  {
    if lines != [] {
      IgnoreBlankSpaceMembers(lines[1..], x);
      if exists i :: 0 <= i < |lines| && x == RStrip(lines[i]) && x != [] {
        var i :| 0 <= i < |lines| && x == RStrip(lines[i]) && x != [];
        if i > 0 {
          assert lines[1..][i - 1] == lines[i];
        }
      }
    }
  }

  /** Lines that are non-empty and carry no trailing whitespace pass through
      unchanged. */
  lemma {:induction false} IgnoreBlankSpaceClean(lines: seq<string>)
    requires forall i :: 0 <= i < |lines| ==> lines[i] != [] && !EndsWithSpace(lines[i])
    ensures IgnoreBlankSpace(lines) == lines
  {
    if lines != [] {
      RStripClean(lines[0]);
      IgnoreBlankSpaceClean(lines[1..]);
    }
  }

  /** Applying the filter to its own output changes nothing. */
  lemma IgnoreBlankSpaceIdempotent(lines: seq<string>)
    ensures IgnoreBlankSpace(IgnoreBlankSpace(lines)) == IgnoreBlankSpace(lines)
  {
    IgnoreBlankSpaceClean(IgnoreBlankSpace(lines));
  }

  /** One line: it is kept, stripped, unless it strips to nothing. */
  lemma IgnoreBlankSpaceLine(line: string)
    ensures IgnoreBlankSpace([line]) == var s := RStrip(line); if s == [] then [] else [s]
  {
    assert [line][1..] == [];
  }

  /** The lines of `"\n\nsome text\n\nmore text\n\n"`, as a file iterator
      yields them. */
  lemma IgnoreBlankSpaceExample()
    ensures IgnoreBlankSpace(["\n", "\n", "some text\n", "\n", "more text\n", "\n"])
            == ["some text", "more text"]
  {
    var blank, some, more := "\n", "some text\n", "more text\n";
    RStripUnique(blank, "");
    RStripUnique(some, "some text");
    RStripUnique(more, "more text");
    IgnoreBlankSpaceLine(blank);
    IgnoreBlankSpaceLine(some);
    IgnoreBlankSpaceLine(more);
    assert [blank, blank, some, blank, more, blank]
        == [blank] + ([blank] + ([some] + ([blank] + ([more] + [blank]))));
    IgnoreBlankSpaceAppend([more], [blank]);
    IgnoreBlankSpaceAppend([blank], [more] + [blank]);
    IgnoreBlankSpaceAppend([some], [blank] + ([more] + [blank]));
    IgnoreBlankSpaceAppend([blank], [some] + ([blank] + ([more] + [blank])));
    IgnoreBlankSpaceAppend([blank], [blank] + ([some] + ([blank] + ([more] + [blank]))));
  }

  // ---------------------------------------------------------------------
  // The FORGN pattern
  // ---------------------------------------------------------------------

  predicate IsUpper(c: char) {
    'A' <= c <= 'Z'
  }

  predicate AllUpper(s: string) {
    forall i :: 0 <= i < |s| ==> IsUpper(s[i])
  }

  /** `(?:,[A-Z]{2,5})*` matches the whole of `t`: `t` is empty, or a comma,
      two to five capitals, and again such a tail. */
  predicate IsCodeTail(t: string)
    decreases |t|, 1
  {
    t == [] ||
    (t[0] == ',' &&
     (CodeThenTail(t, 2) || CodeThenTail(t, 3) || CodeThenTail(t, 4) || CodeThenTail(t, 5)))
  }

  /** After the comma at `t[0]`, a code of exactly `n` capitals, then again a
      code tail. */
  predicate CodeThenTail(t: string, n: nat)
    decreases |t|, 0
  {
    n < |t| && AllUpper(t[1..n + 1]) && IsCodeTail(t[n + 1..])
  }

  /** The anchor `$` after the tail: the tail runs to the end of the string,
      or to just before a final line feed. */
  predicate TailToEnd(t: string) {
    IsCodeTail(t) || (|t| > 0 && t[|t| - 1] == '\n' && IsCodeTail(t[..|t| - 1]))
  }

  /** The pattern matches with `FORGN` starting at index `i`; the leading
      `.*` matches any characters except a line feed. */
  predicate ForeignAt(s: string, i: int) {
    0 <= i && i + 5 <= |s| && '\n' !in s[..i] && s[i..i + 5] == "FORGN" && TailToEnd(s[i + 5..])
  }

  /** `re.match(r'.*FORGN(?:,[A-Z]{2,5})*$', s)` succeeds: backtracking
      tries every split point, so some split point works. */
  predicate IsForeign(s: string) {
    exists i :: 0 <= i <= |s| && ForeignAt(s, i)
  }

  /** On a right-stripped line the anchor can only mean the end of the line:
      such a line is foreign exactly when it holds `FORGN` followed by zero or
      more `,[A-Z]{2,5}` groups up to its end, with no line feed before it. */
  lemma ForeignStripped(s: string)
    requires !EndsWithSpace(s)
    ensures IsForeign(s) <==>
            exists i :: 0 <= i && i + 5 <= |s| && '\n' !in s[..i] && s[i..i + 5] == "FORGN"
                        && IsCodeTail(s[i + 5..])
  {
    if IsForeign(s) {
      var i :| 0 <= i <= |s| && ForeignAt(s, i);
      var t := s[i + 5..];
      if |t| > 0 {
        assert t[|t| - 1] == s[|s| - 1];
      }
      assert IsCodeTail(s[i + 5..]);
    }
    if exists i :: 0 <= i && i + 5 <= |s| && '\n' !in s[..i] && s[i..i + 5] == "FORGN"
                   && IsCodeTail(s[i + 5..]) {
      var i :| 0 <= i && i + 5 <= |s| && '\n' !in s[..i] && s[i..i + 5] == "FORGN"
               && IsCodeTail(s[i + 5..]);
      assert ForeignAt(s, i);
    }
  }

  /** `FORGN` occurs in `s` at index `i`. */
  predicate TagAt(s: string, i: int) {
    0 <= i && i + 5 <= |s| && s[i..i + 5] == "FORGN"
  }

  /** A line that nowhere holds `FORGN` is never foreign. */
  lemma NotForeignWithoutTag(s: string)
    requires forall i :: !TagAt(s, i)
    ensures !IsForeign(s)
  {
    forall i | 0 <= i <= |s| ensures !ForeignAt(s, i) {
      assert !TagAt(s, i);
    }
  }

  /** A line whose last field is `FORGN`, alone or followed by a list of
      codes, is foreign whatever comes before it (short of a line feed). */
  lemma ForeignTagged(prefix: string, tail: string)
    requires '\n' !in prefix
    requires IsCodeTail(tail)
    ensures IsForeign(prefix + "FORGN" + tail)
  {
    var s := prefix + "FORGN" + tail;
    assert s[..|prefix|] == prefix;
    assert s[|prefix|..|prefix| + 5] == "FORGN";
    assert s[|prefix| + 5..] == tail;
    assert ForeignAt(s, |prefix|);
  }

  /** `FORGN` followed by two codes matches. */
  lemma ForeignExample()
    ensures IsForeign("FORGN,PC,SO")
  {
    var t := "FORGN,PC,SO";
    assert IsCodeTail(",SO"[3..]);
    assert IsCodeTail(",SO");
    assert ",PC,SO"[3..] == ",SO";
    assert IsCodeTail(",PC,SO");
    assert t[5..] == ",PC,SO";
    assert ForeignAt(t, 0);
  }

  /** A one-letter or a six-letter code after `FORGN` does not fit the
      pattern. */
  lemma NotForeignExamples()
    ensures !IsForeign("FORGN,P")
    ensures !IsForeign("FORGN,ABCDEF")
  {
    var u := "FORGN,P";
    forall i | 0 <= i <= |u| ensures !ForeignAt(u, i) {
      if i == 0 {
        assert u[5..] == ",P";
      } else if i + 5 <= |u| {
        assert u[i..i + 5][0] == u[i] != 'F';
      }
    }
    var w := "FORGN,ABCDEF";
    forall i | 0 <= i <= |w| ensures !ForeignAt(w, i) {
      if i == 0 {
        var t := w[5..];
        assert t == ",ABCDEF";
        assert t[3..][0] == 'C' && t[4..][0] == 'D' && t[5..][0] == 'E' && t[6..][0] == 'F';
      } else if i + 5 <= |w| {
        assert w[i..i + 5][0] == w[i] != 'F';
      }
    }
  }

  // ---------------------------------------------------------------------
  // _normalize_data
  // ---------------------------------------------------------------------

  /** The loop of `_normalize_data`: keep the lines the FORGN pattern does
      not match, in order. */
  function DropForeign(lines: seq<string>): (out: seq<string>)
    ensures |out| <= |lines|
    ensures forall j :: 0 <= j < |out| ==> !IsForeign(out[j]) && out[j] in lines
  {
    if lines == [] then []
    else (if IsForeign(lines[0]) then [] else [lines[0]]) + DropForeign(lines[1..])
  }

  /** `_normalize_data`: strip and drop blank lines first, then drop the
      foreign ones. */
  function NormalizeData(lines: seq<string>): (out: seq<string>)
    ensures |out| <= |lines|
    ensures forall j :: 0 <= j < |out| ==> out[j] != [] && !EndsWithSpace(out[j]) && !IsForeign(out[j])
  {
    DropForeign(IgnoreBlankSpace(lines))
  }

  /** `a` is `b` with some elements left out, the rest kept in order. */
  ghost predicate IsSubsequence<T>(a: seq<T>, b: seq<T>)
    decreases |b|
  {
    a == [] ||
    (b != [] && (IsSubsequence(a, b[1..]) || (a[0] == b[0] && IsSubsequence(a[1..], b[1..]))))
  }

  lemma {:induction false} DropForeignSubsequence(lines: seq<string>)
    ensures IsSubsequence(DropForeign(lines), lines)
  {
    if lines != [] {
      DropForeignSubsequence(lines[1..]);
      var rest := DropForeign(lines[1..]);
      if IsForeign(lines[0]) {
        assert DropForeign(lines) == rest;
      } else {
        assert DropForeign(lines) == [lines[0]] + rest;
        assert ([lines[0]] + rest)[1..] == rest;
      }
    }
  }

  /** Stripping happens before the FORGN match, so the output of
      `_normalize_data` is an order-preserving subsequence of the output of
      `ignore_blank_space`. */
  lemma NormalizeDataSubsequence(lines: seq<string>)
    ensures IsSubsequence(NormalizeData(lines), IgnoreBlankSpace(lines))
  {
    DropForeignSubsequence(IgnoreBlankSpace(lines));
  }

  lemma {:induction false} DropForeignAppend(a: seq<string>, b: seq<string>)
    ensures DropForeign(a + b) == DropForeign(a) + DropForeign(b)
  {
    if a != [] {
      var head: seq<string> := if IsForeign(a[0]) then [] else [a[0]];
      assert (a + b)[0] == a[0];
      assert (a + b)[1..] == a[1..] + b;
      DropForeignAppend(a[1..], b);
      calc {
        DropForeign(a + b);
        head + DropForeign(a[1..] + b);
        head + (DropForeign(a[1..]) + DropForeign(b));
        (head + DropForeign(a[1..])) + DropForeign(b);
        DropForeign(a) + DropForeign(b);
      }
    } else {
      assert a + b == b;
    }
  }

  /** `_normalize_data` works line by line. */
  lemma NormalizeDataAppend(a: seq<string>, b: seq<string>)
    ensures NormalizeData(a + b) == NormalizeData(a) + NormalizeData(b)
  {
    IgnoreBlankSpaceAppend(a, b);
    DropForeignAppend(IgnoreBlankSpace(a), IgnoreBlankSpace(b));
  }

  /** One line: it is dropped exactly when it strips to nothing or the FORGN
      pattern matches its stripped form; otherwise its stripped form is kept. */
  lemma NormalizeDataLine(line: string)
    ensures NormalizeData([line]) ==
            var s := RStrip(line); if s == [] || IsForeign(s) then [] else [s]
  {
    assert [line][1..] == [];
  }

  /** A line is in the output exactly when it is the stripped form of some
      input line, non-empty and not matched by the FORGN pattern. */
  lemma {:induction false} NormalizeDataMembers(lines: seq<string>, x: string)
    ensures x in NormalizeData(lines) <==>
            exists i :: 0 <= i < |lines| && x == RStrip(lines[i]) && x != [] && !IsForeign(x)
  {
    if lines != [] {
      assert lines == [lines[0]] + lines[1..];
      NormalizeDataAppend([lines[0]], lines[1..]);
      NormalizeDataLine(lines[0]);
      NormalizeDataMembers(lines[1..], x);
      if exists i :: 0 <= i < |lines| && x == RStrip(lines[i]) && x != [] && !IsForeign(x) {
        var i :| 0 <= i < |lines| && x == RStrip(lines[i]) && x != [] && !IsForeign(x);
        if i > 0 {
          assert lines[1..][i - 1] == lines[i];
        }
      }
    }
  }
}
