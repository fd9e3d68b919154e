/**
 * The parts of Go's `strings` package that the bot uses, for the one-character
 * separators and cut sets it passes: `Split(s, " ")`, `Split(s, ",")`,
 * `Join(parts, sep)` and `Trim(s, " ")`.
 */
module Strings {
  /** `strings.Join`: the parts with `sep` between neighbours; the empty list gives "". */
  function Join(parts: seq<string>, sep: string): string
  {
    if |parts| == 0 then ""
    else if |parts| == 1 then parts[0]
    else Join(parts[..|parts| - 1], sep) + sep + parts[|parts| - 1]
  }

  /** Number of occurrences of `c` in `s`. */
  function Count(s: string, c: char): nat
  {
    if s == [] then 0 else Count(s[..|s| - 1], c) + (if s[|s| - 1] == c then 1 else 0)
  }

  /** `strings.Split(s, [c])`: the pieces between the occurrences of `c`; there is always at least one. */
  function Split(s: string, c: char): (r: seq<string>)
    ensures |r| >= 1
  {
    if s == [] then [""]
    else
      var rest := Split(s[..|s| - 1], c);
      if s[|s| - 1] == c then rest + [""]
      else rest[..|rest| - 1] + [rest[|rest| - 1] + [s[|s| - 1]]]
  }

  /** How one more character extends the pieces. */
  lemma SplitSnoc(s: string, x: char, c: char)
    ensures var rest := Split(s, c);
      Split(s + [x], c) ==
        if x == c then rest + [""] else rest[..|rest| - 1] + [rest[|rest| - 1] + [x]]
  {
    assert (s + [x])[..|s|] == s;
  }

  /** Joining the pieces with the separator gives the string back. */
  lemma {:induction false} JoinSplit(s: string, c: char)
    ensures Join(Split(s, c), [c]) == s
  {
    if s != [] {
      var s', x := s[..|s| - 1], s[|s| - 1];
      assert s == s' + [x];
      JoinSplit(s', c);
      SplitSnoc(s', x, c);
      var rest := Split(s', c);
      var r := Split(s, c);
      if x == c {
        assert r[..|rest|] == rest;
      } else if |rest| > 1 {
        assert r[..|r| - 1] == rest[..|rest| - 1];
      }
    }
  }

  /** No piece contains the separator. */
  lemma {:induction false} SplitPiecesFree(s: string, c: char)
    ensures forall k :: 0 <= k < |Split(s, c)| ==> c !in Split(s, c)[k]
  {
    if s != [] {
      var s', x := s[..|s| - 1], s[|s| - 1];
      assert s == s' + [x];
      SplitPiecesFree(s', c);
      SplitSnoc(s', x, c);
    }
  }

  /** A string without the separator is a single piece. */
  lemma {:induction false} SplitNoSeparator(s: string, c: char)
    requires c !in s
    ensures Split(s, c) == [s]
  {
    if s != [] {
      var s', x := s[..|s| - 1], s[|s| - 1];
      assert s == s' + [x];
      SplitNoSeparator(s', c);
      SplitSnoc(s', x, c);
    }
  }

  /** Splitting distributes over an occurrence of the separator. */
  lemma {:induction false} SplitAt(a: string, c: char, b: string)
    ensures Split(a + [c] + b, c) == Split(a, c) + Split(b, c)
  {
    if b == [] {
      assert a + [c] + b == a + [c];
      SplitSnoc(a, c, c);
    } else {
      var b', x := b[..|b| - 1], b[|b| - 1];
      assert a + [c] + b == (a + [c] + b') + [x];
      assert b == b' + [x];
      SplitAt(a, c, b');
      SplitSnoc(a + [c] + b', x, c);
      SplitSnoc(b', x, c);
      var sa, sb := Split(a, c), Split(b', c);
      var rest := sa + sb;
      if x == c {
        assert Split(a + [c] + b, c) == rest + [""];
        assert Split(b, c) == sb + [""];
        assert sa + (sb + [""]) == rest + [""];
      } else {
        var last := sb[|sb| - 1] + [x];
        assert rest[..|rest| - 1] == sa + sb[..|sb| - 1];
        assert rest[|rest| - 1] == sb[|sb| - 1];
        assert Split(a + [c] + b, c) == sa + sb[..|sb| - 1] + [last];
        assert Split(b, c) == sb[..|sb| - 1] + [last];
        assert sa + (sb[..|sb| - 1] + [last]) == sa + sb[..|sb| - 1] + [last];
      }
    }
  }

  /** The number of pieces is one more than the number of separators. */
  lemma {:induction false} SplitLength(s: string, c: char)
    ensures |Split(s, c)| == Count(s, c) + 1
  {
    if s != [] {
      SplitLength(s[..|s| - 1], c);
    }
  }

  /** Joining pieces that contain no separator and splitting again gives the pieces back. */
  lemma {:induction false} SplitJoin(parts: seq<string>, c: char)
    requires |parts| >= 1
    requires forall k :: 0 <= k < |parts| ==> c !in parts[k]
    ensures Split(Join(parts, [c]), c) == parts
  {
    var n := |parts|;
    SplitNoSeparator(parts[n - 1], c);
    if n > 1 {
      SplitJoin(parts[..n - 1], c);
      SplitAt(Join(parts[..n - 1], [c]), c, parts[n - 1]);
      assert parts == parts[..n - 1] + [parts[n - 1]];
    }
  }

  /** `strings.TrimLeft(s, " ")`. */
  function TrimLeftSpaces(s: string): string
  {
    if s != [] && s[0] == ' ' then TrimLeftSpaces(s[1..]) else s
  }

  /** `strings.TrimRight(s, " ")`. */
  function TrimRightSpaces(s: string): string
  {
    if s != [] && s[|s| - 1] == ' ' then TrimRightSpaces(s[..|s| - 1]) else s
  }

  /** `strings.Trim(s, " ")`: every leading and every trailing space removed. */
  function TrimSpaces(s: string): string
  {
    TrimRightSpaces(TrimLeftSpaces(s))
  }

  /** Every character of `s` is a space. */
  predicate AllSpaces(s: string)
  {
    forall k :: 0 <= k < |s| ==> s[k] == ' '
  }

  /** TrimLeft keeps a suffix, removes only spaces, and leaves no leading space. */
  lemma {:induction false} TrimLeftSpacesShape(s: string)
    ensures var r := TrimLeftSpaces(s);
      |r| <= |s| && r == s[|s| - |r|..] && AllSpaces(s[..|s| - |r|]) && (r == [] || r[0] != ' ')
  {
    if s != [] && s[0] == ' ' {
      TrimLeftSpacesShape(s[1..]);
      var r := TrimLeftSpaces(s);
      assert s[1..][|s| - 1 - |r|..] == s[|s| - |r|..];
      assert s[..|s| - |r|] == [' '] + s[1..][..|s| - 1 - |r|];
    }
  }

  /** TrimRight keeps a prefix, removes only spaces, and leaves no trailing space. */
  lemma {:induction false} TrimRightSpacesShape(s: string)
    ensures var r := TrimRightSpaces(s);
      |r| <= |s| && r == s[..|r|] && AllSpaces(s[|r|..]) && (r == [] || r[|r| - 1] != ' ')
  {
    if s != [] && s[|s| - 1] == ' ' {
      TrimRightSpacesShape(s[..|s| - 1]);
      var r := TrimRightSpaces(s);
      assert s[..|s| - 1][..|r|] == s[..|r|];
      assert s[|r|..] == s[..|s| - 1][|r|..] + [' '];
    }
  }

  /** Leading spaces before a string that does not start with one are all removed. */
  lemma {:induction false} TrimLeftPadded(pre: string, t: string)
    requires AllSpaces(pre) && (t == [] || t[0] != ' ')
    ensures TrimLeftSpaces(pre + t) == t
  {
    if pre != [] {
      assert (pre + t)[1..] == pre[1..] + t;
      TrimLeftPadded(pre[1..], t);
    } else {
      assert pre + t == t;
    }
  }

  /** Trailing spaces after a string that does not end with one are all removed. */
  lemma {:induction false} TrimRightPadded(t: string, post: string)
    requires AllSpaces(post) && (t == [] || t[|t| - 1] != ' ')
    ensures TrimRightSpaces(t + post) == t
  {
    if post != [] {
      assert (t + post)[..|t + post| - 1] == t + post[..|post| - 1];
      TrimRightPadded(t, post[..|post| - 1]);
    } else {
      assert t + post == t;
    }
  }

  /**
   * Trimming removes exactly the padding: a string that neither starts nor ends
   * with a space comes back unchanged from any padding by spaces.
   */
  lemma TrimPadded(pre: string, s: string, post: string)
    requires AllSpaces(pre) && AllSpaces(post)
    requires s != [] && s[0] != ' ' && s[|s| - 1] != ' '
    ensures TrimSpaces(pre + s + post) == s
  {
    assert pre + s + post == pre + (s + post);
    TrimLeftPadded(pre, s + post);
    TrimRightPadded(s, post);
  }

  /** Trimming a string made of spaces only leaves nothing. */
  lemma TrimAllSpaces(s: string)
    requires AllSpaces(s)
    ensures TrimSpaces(s) == ""
  {
    assert s + "" == s;
    TrimLeftPadded(s, "");
  }
}
