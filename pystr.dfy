/**
 * The few Python string built-ins the program relies on: `str.startswith`,
 * `str.find` for one character, `str.replace` (replace every occurrence)
 * and `sep.join(list)`.
 */
module PyStr {

  /** `s.startswith(p)` */
  predicate StartsWith(s: string, p: string) {
    |p| <= |s| && s[..|p|] == p
  }

  /** `pat` occurs in `s` starting at index `i`. */
  predicate OccursAt(s: string, pat: string, i: nat) {
    i + |pat| <= |s| && s[i..i + |pat|] == pat
  }

  /** `pat in s` */
  predicate Contains(s: string, pat: string) {
    exists i: nat | i <= |s| :: OccursAt(s, pat, i)
  }

  /**
   * `s.find(c, start)`: the first index at or after `start` holding `c`,
   * or -1 when there is none.
   */
  function FindChar(s: string, c: char, start: nat): (r: int)
    ensures r == -1 || start <= r < |s|
    ensures r == -1 <==> forall i :: start <= i < |s| ==> s[i] != c
    ensures r != -1 ==> s[r] == c && forall i :: start <= i < r ==> s[i] != c
    decreases |s| - start
  {
    if start >= |s| then -1
    else if s[start] == c then start
    else FindChar(s, c, start + 1)
  }

  /**
   * `s.replace(pat, rep)`: scans from the left and replaces every
   * non-overlapping occurrence of `pat` by `rep`.
   */
  function ReplaceAll(s: string, pat: string, rep: string): string
    requires |pat| > 0
    decreases |s|
  {
    if |s| < |pat| then s
    else if s[..|pat|] == pat then rep + ReplaceAll(s[|pat|..], pat, rep)
    else [s[0]] + ReplaceAll(s[1..], pat, rep)
  }

  /** `sep.join(xs)` */
  function JoinWith(xs: seq<string>, sep: string): string {
    if |xs| == 0 then ""
    else if |xs| == 1 then xs[0]
    else xs[0] + sep + JoinWith(xs[1..], sep)
  }

  /**
   * `s.split(pat)`: the pieces of `s` between the occurrences of `pat` that
   * a left-to-right scan finds; a reference for `ReplaceAll`.
   */
  function Split(s: string, pat: string): (r: seq<string>)
    requires |pat| > 0
    ensures |r| >= 1
    decreases |s|
  {
    if |s| < |pat| then [s]
    else if s[..|pat|] == pat then [""] + Split(s[|pat|..], pat)
    else
      var rest := Split(s[1..], pat);
      [[s[0]] + rest[0]] + rest[1..]
  }

  lemma JoinCons(x: string, ys: seq<string>, sep: string)
    requires |ys| >= 1
    ensures JoinWith([x] + ys, sep) == x + sep + JoinWith(ys, sep)
  {
  }

  /** Prepending to the first piece prepends to the joined string. */
  lemma {:induction false} JoinPrependFirst(c: string, ys: seq<string>, sep: string)
    requires |ys| >= 1
    ensures JoinWith([c + ys[0]] + ys[1..], sep) == c + JoinWith(ys, sep)
  {
  }

  /** `s.replace(pat, rep) == rep.join(s.split(pat))` */
  lemma {:induction false} ReplaceAllIsJoinOfSplit(s: string, pat: string, rep: string)
    requires |pat| > 0
    ensures ReplaceAll(s, pat, rep) == JoinWith(Split(s, pat), rep)
    decreases |s|
  {
    if |s| < |pat| {
    } else if s[..|pat|] == pat {
      ReplaceAllIsJoinOfSplit(s[|pat|..], pat, rep);
      JoinCons("", Split(s[|pat|..], pat), rep);
    } else {
      ReplaceAllIsJoinOfSplit(s[1..], pat, rep);
      JoinPrependFirst([s[0]], Split(s[1..], pat), rep);
    }
  }

  /** Replacing a pattern by itself changes nothing. */
  lemma {:induction false} ReplaceAllSelf(s: string, pat: string)
    requires |pat| > 0
    ensures ReplaceAll(s, pat, pat) == s
    decreases |s|
  {
    if |s| < |pat| {
    } else if s[..|pat|] == pat {
      ReplaceAllSelf(s[|pat|..], pat);
      assert s == s[..|pat|] + s[|pat|..];
    } else {
      ReplaceAllSelf(s[1..], pat);
      assert s == [s[0]] + s[1..];
    }
  }

  /** Joining the pieces of a split with the separator gives back the string. */
  lemma {:induction false} SplitJoinRoundTrip(s: string, pat: string)
    requires |pat| > 0
    ensures JoinWith(Split(s, pat), pat) == s
  {
    ReplaceAllIsJoinOfSplit(s, pat, pat);
    ReplaceAllSelf(s, pat);
  }

  /** The first piece of a split is a prefix of the string. */
  lemma {:induction false} SplitFirstIsPrefix(s: string, pat: string)
    requires |pat| > 0
    ensures StartsWith(s, Split(s, pat)[0])
    decreases |s|
  {
    if |s| >= |pat| && s[..|pat|] != pat {
      SplitFirstIsPrefix(s[1..], pat);
    }
  }

  /** No piece of a split holds the pattern: every occurrence was cut out. */
  /** A first piece grown by a character that does not begin the pattern still avoids it. */
  lemma FirstPieceAvoidsPattern(s: string, pat: string, piece: string)
    requires |pat| > 0 && |s| >= |pat| && s[..|pat|] != pat
    requires StartsWith(s[1..], piece) && !Contains(piece, pat)
    ensures !Contains([s[0]] + piece, pat)
  {
    var first := [s[0]] + piece;
    forall j: nat | j <= |first| ensures !OccursAt(first, pat, j) {
      if j == 0 {
        if |pat| <= |first| {
          assert first[..|pat|] == s[..|pat|];
        }
      } else if OccursAt(first, pat, j) {
        assert first[j..j + |pat|] == piece[j - 1..j - 1 + |pat|];
        assert OccursAt(piece, pat, j - 1);
      }
    }
  }

  lemma {:induction false} SplitPiecesAvoidPattern(s: string, pat: string)
    requires |pat| > 0
    ensures forall i :: 0 <= i < |Split(s, pat)| ==> !Contains(Split(s, pat)[i], pat)
    decreases |s|
  {
    if |s| < |pat| {
      assert forall j: nat | j <= |s| :: !OccursAt(s, pat, j);
    } else if s[..|pat|] == pat {
      SplitPiecesAvoidPattern(s[|pat|..], pat);
      assert !OccursAt("", pat, 0);
    } else {
      var rest := Split(s[1..], pat);
      SplitPiecesAvoidPattern(s[1..], pat);
      SplitFirstIsPrefix(s[1..], pat);
      FirstPieceAvoidsPattern(s, pat, rest[0]);
      assert Split(s, pat) == [[s[0]] + rest[0]] + rest[1..];
    }
  }

  /** A string that does not contain the pattern is left as it is. */
  lemma {:induction false} ReplaceAllAbsent(s: string, pat: string, rep: string)
    requires |pat| > 0
    requires !Contains(s, pat)
    ensures ReplaceAll(s, pat, rep) == s
    decreases |s|
  {
    if |s| >= |pat| {
      assert !OccursAt(s, pat, 0);
      assert s[0..|pat|] == s[..|pat|];
      forall i: nat ensures !OccursAt(s[1..], pat, i) {
        if OccursAt(s[1..], pat, i) {
          assert s[1..][i..i + |pat|] == s[i + 1..i + 1 + |pat|];
          assert OccursAt(s, pat, i + 1);
        }
      }
      ReplaceAllAbsent(s[1..], pat, rep);
      assert s == [s[0]] + s[1..];
    }
  }

  /** The text before the first character of the pattern passes through unchanged. */
  lemma {:induction false} ReplaceAllSkipsPrefix(a: string, b: string, pat: string, rep: string)
    requires |pat| > 0
    requires forall i :: 0 <= i < |a| ==> a[i] != pat[0]
    ensures ReplaceAll(a + b, pat, rep) == a + ReplaceAll(b, pat, rep)
    decreases |a|
  {
    if |a| > 0 {
      var s := a + b;
      if |s| >= |pat| {
        assert s[..|pat|][0] == a[0];
        assert s[1..] == a[1..] + b;
        ReplaceAllSkipsPrefix(a[1..], b, pat, rep);
        calc {
          ReplaceAll(s, pat, rep);
          [s[0]] + ReplaceAll(s[1..], pat, rep);
          [a[0]] + (a[1..] + ReplaceAll(b, pat, rep));
          { assert a == [a[0]] + a[1..]; }
          a + ReplaceAll(b, pat, rep);
        }
      } else {
        ReplaceAllShort(b, pat, rep);
        ReplaceAllShort(s, pat, rep);
      }
    } else {
      assert a + b == b;
    }
  }

  /**
   * `pat` could begin at the start of `a`: either `a` starts with `pat`, or
   * `a` is a proper prefix of `pat` that more text could complete.
   */
  predicate CouldBegin(pat: string, a: string) {
    if |a| >= |pat| then a[..|pat|] == pat else a == pat[..|a|]
  }

  /** No occurrence of `pat` can start inside `t`, whatever text follows it. */
  predicate ClashFree(t: string, pat: string) {
    forall i :: 0 <= i < |t| ==> !CouldBegin(pat, t[i..])
  }

  /** Text in which the pattern cannot begin passes through unchanged. */
  lemma {:induction false} ReplaceAllSkipsClashFree(t: string, b: string, pat: string, rep: string)
    requires |pat| > 0
    requires ClashFree(t, pat)
    ensures ReplaceAll(t + b, pat, rep) == t + ReplaceAll(b, pat, rep)
    decreases |t|
  {
    if |t| == 0 {
      assert t + b == b;
    } else {
      var s := t + b;
      if |s| < |pat| {
        ReplaceAllShort(b, pat, rep);
        ReplaceAllShort(s, pat, rep);
      } else {
        assert !CouldBegin(pat, t[0..]);
        assert t[0..] == t;
        if |t| >= |pat| {
          assert s[..|pat|] == t[..|pat|];
        } else {
          assert s[..|pat|][..|t|] == t;
        }
        assert s[..|pat|] != pat;
        var t' := t[1..];
        assert s[1..] == t' + b;
        assert ClashFree(t', pat) by {
          forall i | 0 <= i < |t'| ensures !CouldBegin(pat, t'[i..]) {
            assert t'[i..] == t[i + 1..];
          }
        }
        ReplaceAllSkipsClashFree(t', b, pat, rep);
        calc {
          ReplaceAll(s, pat, rep);
          [s[0]] + ReplaceAll(s[1..], pat, rep);
          [t[0]] + (t' + ReplaceAll(b, pat, rep));
          { assert t == [t[0]] + t'; }
          t + ReplaceAll(b, pat, rep);
        }
      }
    }
  }

  /** Text without the pattern's first character is clash-free. */
  lemma WithoutStartCharIsClashFree(t: string, pat: string)
    requires |pat| > 0
    requires forall i :: 0 <= i < |t| ==> t[i] != pat[0]
    ensures ClashFree(t, pat)
  {
    forall i | 0 <= i < |t| ensures !CouldBegin(pat, t[i..]) {
      assert t[i..][0] == t[i];
    }
  }

  lemma ReplaceAllShort(s: string, pat: string, rep: string)
    requires |pat| > 0 && |s| < |pat|
    ensures ReplaceAll(s, pat, rep) == s
  {
  }

  /** An occurrence at the front is replaced and the scan continues after it. */
  lemma ReplaceAllAtFront(pat: string, b: string, rep: string)
    requires |pat| > 0
    ensures ReplaceAll(pat + b, pat, rep) == rep + ReplaceAll(b, pat, rep)
  {
  }
}
