/**
 * String helpers of the playlist generator, with Python's semantics:
 * `str.strip()`, `str.strip(chars)`, `str.split(sep)` and POSIX
 * `os.path.basename`.
 */
module Text {

  /** Python's `str.isspace()` for one character (the characters `str.strip()` removes). */
  predicate IsSpace(c: char)
  {
    ('\t' <= c <= '\r') || ('\U{1c}' <= c <= ' ') || c == '\U{85}' || c == '\U{a0}'
    || c == '\U{1680}' || ('\U{2000}' <= c <= '\U{200a}') || c == '\U{2028}' || c == '\U{2029}'
    || c == '\U{202f}' || c == '\U{205f}' || c == '\U{3000}'
  }

  /** The characters of `strip("'\"")`. */
  predicate IsQuote(c: char)
  {
    c == '\'' || c == '"'
  }

  /** The two character sets `stripAll` strips: `strip()` and `strip("'\"")`. */
  datatype Chars = Whitespace | Quotes

  predicate Drops(chars: Chars, c: char)
  {
    match chars
    case Whitespace => IsSpace(c)
    case Quotes => IsQuote(c)
  }

  /**
   * `s.strip(chars)`: drops characters of `chars` from the front while
   * there are any, then from the back.
   */
  function Strip(s: string, chars: Chars): (r: string)
    ensures r == [] || (!Drops(chars, r[0]) && !Drops(chars, r[|r| - 1]))
    decreases |s|
  {
    if s == [] then s
    else if Drops(chars, s[0]) then Strip(s[1..], chars)
    else if Drops(chars, s[|s| - 1]) then Strip(s[..|s| - 1], chars)
    else s
  }

  /** `r` occurs in `s` starting at index `i`. */
  predicate IsSliceAt(r: string, s: string, i: int)
  {
    0 <= i && i + |r| <= |s| && s[i..i + |r|] == r
  }

  /** A piece of a piece of `s` is a piece of `s`. */
  lemma SliceOfSlice(r: string, w: string, s: string, i: int, j: int)
    requires IsSliceAt(r, w, j) && IsSliceAt(w, s, i)
    ensures IsSliceAt(r, s, i + j)
  {
    forall k | 0 <= k < |r|
      ensures s[i + j..i + j + |r|][k] == r[k]
    {
      assert r[k] == w[j + k] == s[i + j + k];
    }
  }

  /** `r` sits in `s` at `i`, and every character of `s` around it is one `chars` drops. */
  predicate CutFrom(r: string, s: string, chars: Chars, i: int)
  {
    && IsSliceAt(r, s, i)
    && (forall m :: 0 <= m < i ==> Drops(chars, s[m]))
    && (forall m :: i + |r| <= m < |s| ==> Drops(chars, s[m]))
  }

  /** A cut of `s[1..]` is a cut of `s` one further on, when `s[0]` is dropped. */
  lemma CutFromFront(r: string, s: string, chars: Chars, j: int)
    requires s != [] && Drops(chars, s[0]) && CutFrom(r, s[1..], chars, j)
    ensures CutFrom(r, s, chars, j + 1)
  {
    SliceOfSlice(r, s[1..], s, 1, j);
    assert forall m :: 1 <= m < |s| ==> s[m] == s[1..][m - 1];
  }

  /** A cut of `s` without its last character is a cut of `s`, when that character is dropped. */
  lemma CutFromBack(r: string, s: string, chars: Chars, j: int)
    requires s != [] && Drops(chars, s[|s| - 1]) && CutFrom(r, s[..|s| - 1], chars, j)
    ensures CutFrom(r, s, chars, j)
  {
    SliceOfSlice(r, s[..|s| - 1], s, 0, j);
    assert forall m :: 0 <= m < |s| - 1 ==> s[m] == s[..|s| - 1][m];
  }

  /** Where `Strip` cuts: the result starts at `i`, and everything around it is dropped. */
  lemma {:induction false} StripOffset(s: string, chars: Chars) returns (i: int)
    ensures CutFrom(Strip(s, chars), s, chars, i)
    decreases |s|
  {
    if s == [] {
      i := 0;
    } else if Drops(chars, s[0]) {
      var j := StripOffset(s[1..], chars);
      CutFromFront(Strip(s, chars), s, chars, j);
      i := j + 1;
    } else if Drops(chars, s[|s| - 1]) {
      i := StripOffset(s[..|s| - 1], chars);
      CutFromBack(Strip(s, chars), s, chars, i);
    } else {
      i := 0;
      assert s[0..|s|] == s;
    }
  }

  /**
   * Python's `strip` removes exactly the characters of `chars` at both
   * ends: the result is a contiguous piece of `s`, and everything before
   * and after it is dropped.
   */
  lemma StripRemovesOnlyDropped(s: string, chars: Chars)
    ensures exists i :: CutFrom(Strip(s, chars), s, chars, i)
  {
    var i := StripOffset(s, chars);
  }

  /**
   * `stripAll` (genPlaylist.py): whitespace first, then every leading and
   * trailing quote character, however many layers there are, so the
   * result has no quote at either end.
   */
  function StripAll(s: string): (r: string)
    ensures r == [] || (!IsQuote(r[0]) && !IsQuote(r[|r| - 1]))
  {
    Strip(Strip(s, Whitespace), Quotes)
  }

  /** What `StripAll` returns is a contiguous piece of its input. */
  lemma StripAllIsSlice(s: string)
    ensures exists i :: IsSliceAt(StripAll(s), s, i)
  {
    var w := Strip(s, Whitespace);
    var i := StripOffset(s, Whitespace);
    var j := StripOffset(w, Quotes);
    SliceOfSlice(StripAll(s), w, s, i, j);
  }

  /** A token with nothing to strip at either end comes back unchanged. */
  lemma StripAllKeepsClean(s: string)
    requires s != [] ==> !IsSpace(s[0]) && !IsQuote(s[0])
    requires s != [] ==> !IsSpace(s[|s| - 1]) && !IsQuote(s[|s| - 1])
    ensures StripAll(s) == s
  {
    assert Strip(s, Whitespace) == s;
  }

  /** Every character of `s` is one `chars` drops. */
  predicate AllDropped(s: string, chars: Chars)
  {
    forall m :: 0 <= m < |s| ==> Drops(chars, s[m])
  }

  /**
   * Padding of dropped characters around a core whose end characters are
   * kept is exactly what `strip` removes.
   */
  lemma {:induction false} StripAround(pre: string, core: string, post: string, chars: Chars)
    requires AllDropped(pre, chars) && AllDropped(post, chars)
    requires core != [] && !Drops(chars, core[0]) && !Drops(chars, core[|core| - 1])
    ensures Strip(pre + core + post, chars) == core
    decreases |pre| + |post|
  {
    var s := pre + core + post;
    if pre != [] {
      assert s[0] == pre[0];
      assert s[1..] == pre[1..] + core + post;
      StripAround(pre[1..], core, post, chars);
    } else if post != [] {
      assert s == core + post;
      assert s[0] == core[0] && s[|s| - 1] == post[|post| - 1];
      assert s[..|s| - 1] == [] + core + post[..|post| - 1];
      StripAround(pre, core, post[..|post| - 1], chars);
    } else {
      assert s == core;
    }
  }

  /** Surrounding whitespace and quotes go: `  'song.mp3'  ` becomes `song.mp3`. */
  lemma StripAllExample()
    ensures StripAll("  'song.mp3'  ") == "song.mp3"
  {
    var s := "  'song.mp3'  ";
    var quoted := "'song.mp3'";
    assert s == "  " + quoted + "  ";
    StripAround("  ", quoted, "  ", Whitespace);
    assert quoted == "'" + "song.mp3" + "'";
    StripAround("'", "song.mp3", "'", Quotes);
  }

  /** Every layer of quotes is removed, not just one: `"'x'"` becomes `x`. */
  lemma StripAllRemovesNestedQuotes()
    ensures StripAll("\"'x'\"") == "x"
  {
    var s := "\"'x'\"";
    StripAround([], s, [], Whitespace);
    assert s == "\"'" + "x" + "'\"";
    StripAround("\"'", "x", "'\"", Quotes);
  }

  /**
   * Whitespace inside the quotes is kept: `' a '` becomes ` a `, which a
   * second pass would strip again, so `StripAll` is not idempotent.
   */
  lemma StripAllKeepsQuotedSpace()
    ensures StripAll("' a '") == " a "
    ensures StripAll(StripAll("' a '")) == "a"
  {
    var s := "' a '";
    StripAround([], s, [], Whitespace);
    assert s == "'" + " a " + "'";
    StripAround("'", " a ", "'", Quotes);
    assert " a " == " " + "a" + " ";
    StripAround(" ", "a", " ", Whitespace);
    StripAround([], "a", [], Quotes);
  }

  /**
   * `s.split(sep)`: the pieces between the separators, in order; the
   * empty string gives one empty piece.
   */
  function Split(s: string, sep: char): (r: seq<string>)
    ensures |r| >= 1
    ensures forall i :: 0 <= i < |r| ==> sep !in r[i]
  {
    if s == [] then [[]]
    else
      var rest := Split(s[1..], sep);
      if s[0] == sep then [[]] + rest
      else [[s[0]] + rest[0]] + rest[1..]
  }

  /** `sep.join(parts)`. */
  function Join(parts: seq<string>, sep: char): string
  {
    if parts == [] then []
    else if |parts| == 1 then parts[0]
    else parts[0] + [sep] + Join(parts[1..], sep)
  }

  /** Joining the pieces back with the separator restores the input. */
  lemma {:induction false} JoinSplit(s: string, sep: char)
    ensures Join(Split(s, sep), sep) == s
  {
    if s != [] {
      var rest := Split(s[1..], sep);
      JoinSplit(s[1..], sep);
      if s[0] == sep {
        assert Split(s, sep) == [[]] + rest;
        assert ([[]] + rest)[1..] == rest;
      } else {
        var parts := Split(s, sep);
        assert parts == [[s[0]] + rest[0]] + rest[1..];
        if |rest| == 1 {
          assert parts == [[s[0]] + rest[0]];
        } else {
          assert parts[1..] == rest[1..];
          assert Join(rest, sep) == rest[0] + [sep] + Join(rest[1..], sep);
        }
      }
    }
  }

  /** A string without the separator is a single piece. */
  lemma {:induction false} SplitWithoutSep(s: string, sep: char)
    requires sep !in s
    ensures Split(s, sep) == [s]
  {
    if s != [] {
      SplitWithoutSep(s[1..], sep);
      assert [s[0]] + s[1..] == s;
    }
  }

  /** A separator after a separator-free prefix ends the first piece there. */
  lemma {:induction false} SplitAtSep(x: string, sep: char, y: string)
    requires sep !in x
    ensures Split(x + [sep] + y, sep) == [x] + Split(y, sep)
  {
    if x == [] {
      assert x + [sep] + y == [sep] + y;
      assert ([sep] + y)[1..] == y;
    } else {
      SplitAtSep(x[1..], sep, y);
      assert (x + [sep] + y)[1..] == x[1..] + [sep] + y;
      assert [x[0]] + x[1..] == x;
    }
  }

  /** Splitting a join of separator-free pieces gives the pieces back. */
  lemma {:induction false} SplitJoin(parts: seq<string>, sep: char)
    requires |parts| >= 1
    requires forall i :: 0 <= i < |parts| ==> sep !in parts[i]
    ensures Split(Join(parts, sep), sep) == parts
  {
    if |parts| == 1 {
      SplitWithoutSep(parts[0], sep);
    } else {
      SplitJoin(parts[1..], sep);
      SplitAtSep(parts[0], sep, Join(parts[1..], sep));
      assert [parts[0]] + parts[1..] == parts;
    }
  }

  /**
   * POSIX `os.path.basename`: the part of `p` after its last `/`.
   */
  function BaseName(p: string): (r: string)
    ensures |r| <= |p|
    ensures '/' !in r
  {
    if p == [] || p[|p| - 1] == '/' then []
    else BaseName(p[..|p| - 1]) + [p[|p| - 1]]
  }

  /** The base name is the end of the path, and it is all of it or it follows a `/`. */
  lemma {:induction false} BaseNameIsTail(p: string)
    ensures BaseName(p) == p[|p| - |BaseName(p)|..]
    ensures |BaseName(p)| < |p| ==> p[|p| - |BaseName(p)| - 1] == '/'
  {
    if p != [] && p[|p| - 1] != '/' {
      var q := p[..|p| - 1];
      BaseNameIsTail(q);
      var b := BaseName(q);
      assert BaseName(p) == b + [p[|p| - 1]];
      assert p == q + [p[|p| - 1]];
      assert p[|q| - |b|..] == q[|q| - |b|..] + [p[|p| - 1]];
    }
  }
}
