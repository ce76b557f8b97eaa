/** The java.lang.String operations the program relies on, over `seq<char>`:
    indexOf, lastIndexOf, split with a one-character literal pattern, strip,
    and the joining that split undoes. */
module JavaStrings {

  /** `pat` occurs in `s` starting at index `i`. */
  predicate OccursAt(s: string, pat: string, i: int)
  {
    0 <= i && i + |pat| <= |s| && s[i..i + |pat|] == pat
  }

  /** `s.indexOf(pat, from)`: the first occurrence at or after `from`, or -1. */
  function IndexOfFrom(s: string, pat: string, from: nat): (r: int)
    ensures r == -1 || (from <= r && OccursAt(s, pat, r))
    ensures forall i :: from <= i && (r == -1 || i < r) ==> !OccursAt(s, pat, i)
    decreases |s| - from
  {
    if from + |pat| > |s| then -1
    else if s[from..from + |pat|] == pat then from
    else IndexOfFrom(s, pat, from + 1)
  }

  /** `s.indexOf(pat)`. */
  function IndexOf(s: string, pat: string): (r: int)
    ensures r == -1 || OccursAt(s, pat, r)
    ensures forall i :: 0 <= i && (r == -1 || i < r) ==> !OccursAt(s, pat, i)
  {
    IndexOfFrom(s, pat, 0)
  }

  /** `s.indexOf(c)`: the first index holding `c`, or -1. */
  function IndexOfChar(s: string, c: char): (r: int)
    ensures -1 <= r < |s|
    ensures r >= 0 ==> s[r] == c
    ensures forall k :: 0 <= k < |s| && (r == -1 || k < r) ==> s[k] != c
  {
    if s == [] then -1
    else if s[0] == c then 0
    else
      var i := IndexOfChar(s[1..], c);
      if i == -1 then -1 else i + 1
  }

  /** `s.lastIndexOf(c)`: the last index holding `c`, or -1. */
  function LastIndexOf(s: string, c: char): (r: int)
    ensures -1 <= r < |s|
    ensures r >= 0 ==> s[r] == c
    ensures forall k :: r < k < |s| ==> s[k] != c
  {
    if s == [] then -1
    else if s[|s| - 1] == c then |s| - 1
    else LastIndexOf(s[..|s| - 1], c)
  }

  /** The pieces of `s` between the occurrences of `sep`, empty pieces included:
      one more piece than there are separators. */
  function Pieces(s: string, sep: char): (r: seq<string>)
    ensures |r| >= 1
    ensures forall k :: 0 <= k < |r| ==> sep !in r[k]
  {
    if s == [] then [[]]
    else
      var rest := Pieces(s[1..], sep);
      if s[0] == sep then [[]] + rest
      else [[s[0]] + rest[0]] + rest[1..]
  }

  /** Removes the empty strings at the end of `ps`. */
  function DropTrailingEmpty(ps: seq<string>): (r: seq<string>)
    ensures r <= ps
    ensures r == [] || r[|r| - 1] != []
    ensures forall k :: |r| <= k < |ps| ==> ps[k] == []
  {
    if ps == [] || ps[|ps| - 1] != [] then ps
    else DropTrailingEmpty(ps[..|ps| - 1])
  }

  /** `s.split(p)` where the pattern `p` matches exactly the one character `sep`
      (as "/", "," and "\\?" do) and no limit is given: with no match the result
      is `[s]`, otherwise the pieces with the trailing empty ones removed.
      No piece holds `sep`, the last one is not empty, and joined again they
      give `s` up to the separators at its end. */
  function Split(s: string, sep: char): (r: seq<string>)
    ensures forall k :: 0 <= k < |r| ==> sep !in r[k]
    ensures sep !in s ==> r == [s]
    ensures sep in s ==> r == [] || r[|r| - 1] != []
    ensures r != [] ==> Join(r, sep) <= s && forall i :: |Join(r, sep)| <= i < |s| ==> s[i] == sep
  {
    if sep !in s then [s]
    else
      JoinPieces(s, sep);
      JoinDropTrailingEmpty(Pieces(s, sep), sep);
      DropTrailingEmpty(Pieces(s, sep))
  }

  /** The pieces of `ps` with `sep` between consecutive ones. */
  function Join(ps: seq<string>, sep: char): string
    requires |ps| >= 1
  {
    if |ps| == 1 then ps[0] else ps[0] + [sep] + Join(ps[1..], sep)
  }

  /** `Character.isWhitespace` on the characters below 128. */
  predicate IsWhitespace(c: char)
  {
    c == ' ' || 9 <= c as int <= 13 || 28 <= c as int <= 31
  }

  /** `s` without its leading white space. */
  function StripLeading(s: string): string
  {
    if s != [] && IsWhitespace(s[0]) then StripLeading(s[1..]) else s
  }

  /** `s` without its trailing white space. */
  function StripTrailing(s: string): string
  {
    if s != [] && IsWhitespace(s[|s| - 1]) then StripTrailing(s[..|s| - 1]) else s
  }

  /** `s.strip()`: `s` without its leading and trailing white space. The
      result neither starts nor ends with white space, and it is a slice of `s`
      with only white space cut off either side. */
  function Strip(s: string): (r: string)
    ensures r == [] || (!IsWhitespace(r[0]) && !IsWhitespace(r[|r| - 1]))
    ensures exists i :: 0 <= i <= |s| && r <= s[i..]
              && (forall k :: 0 <= k < i ==> IsWhitespace(s[k]))
              && (forall k :: i + |r| <= k < |s| ==> IsWhitespace(s[k]))
  {
    var front := StripLeading(s);
    StripLeadingCuts(s);
    StripTrailingCuts(front);
    var r := StripTrailing(front);
    var i := |s| - |front|;
    assert front == s[i..];
    forall k | i + |r| <= k < |s| ensures IsWhitespace(s[k]) {
      assert s[k] == front[k - i];
    }
    r
  }

  // ---------------------------------------------------------------------------
  // Lemmas

  /** Joining all but the last piece, then the separator and the last piece,
      is joining all the pieces. */
  lemma {:induction false} JoinSnoc(ps: seq<string>, sep: char)
    requires |ps| >= 2
    ensures Join(ps, sep) == Join(ps[..|ps| - 1], sep) + [sep] + ps[|ps| - 1]
    decreases |ps|
  {
    if |ps| > 2 {
      JoinSnoc(ps[1..], sep);
      assert ps[..|ps| - 1][1..] == ps[1..][..|ps| - 2];
    } else {
      assert ps[..1] == [ps[0]];
    }
  }

  /** Dropping the empty pieces at the end of `ps` drops only separators from
      the end of their join. */
  lemma {:induction false} JoinDropTrailingEmpty(ps: seq<string>, sep: char)
    requires |ps| >= 1
    ensures var r := DropTrailingEmpty(ps);
            r != [] ==> Join(r, sep) <= Join(ps, sep)
                        && forall i :: |Join(r, sep)| <= i < |Join(ps, sep)| ==> Join(ps, sep)[i] == sep
    decreases |ps|
  {
    if ps[|ps| - 1] == [] && |ps| > 1 {
      var init := ps[..|ps| - 1];
      JoinDropTrailingEmpty(init, sep);
      JoinSnoc(ps, sep);
      assert Join(ps, sep) == Join(init, sep) + [sep];
    }
  }

  /** Splitting at `sep` and putting the separators back gives the string again. */
  lemma {:induction false} JoinPieces(s: string, sep: char)
    ensures Join(Pieces(s, sep), sep) == s
  {
    if s != [] {
      var rest := Pieces(s[1..], sep);
      JoinPieces(s[1..], sep);
      if s[0] == sep {
        assert Pieces(s, sep) == [[]] + rest;
        assert Pieces(s, sep)[1..] == rest;
      } else {
        if |rest| == 1 {
          assert Pieces(s, sep) == [[s[0]] + rest[0]];
        } else {
          assert Pieces(s, sep)[1..] == rest[1..];
          assert Join(rest, sep) == rest[0] + [sep] + Join(rest[1..], sep);
        }
      }
    }
  }

  /** A string without `sep` is one piece. */
  lemma {:induction false} PiecesOfPlain(s: string, sep: char)
    requires sep !in s
    ensures Pieces(s, sep) == [s]
  {
    if s != [] {
      assert sep !in s[1..];
      PiecesOfPlain(s[1..], sep);
      assert [s[0]] + s[1..] == s;
    }
  }

  /** A separator splits the pieces of a concatenation in two. */
  lemma {:induction false} PiecesAppend(a: string, b: string, sep: char)
    ensures Pieces(a + [sep] + b, sep) == Pieces(a, sep) + Pieces(b, sep)
  {
    if a == [] {
      assert a + [sep] + b == [sep] + b;
      assert ([sep] + b)[1..] == b;
    } else {
      var s := a + [sep] + b;
      assert s[0] == a[0] && s[1..] == a[1..] + [sep] + b;
      PiecesAppend(a[1..], b, sep);
      var p, q := Pieces(a[1..], sep), Pieces(b, sep);
      var rest := Pieces(s[1..], sep);
      assert rest == p + q;
      if a[0] == sep {
        assert Pieces(s, sep) == [[]] + rest;
        assert Pieces(a, sep) == [[]] + p;
      } else {
        assert rest[0] == p[0] && rest[1..] == p[1..] + q;
        assert Pieces(s, sep) == [[a[0]] + rest[0]] + rest[1..];
        assert Pieces(a, sep) == [[a[0]] + p[0]] + p[1..];
      }
    }
  }

  /** Joining `sep`-free pieces and splitting again gives the pieces back. */
  lemma {:induction false} PiecesJoin(ps: seq<string>, sep: char)
    requires |ps| >= 1
    requires forall k :: 0 <= k < |ps| ==> sep !in ps[k]
    ensures Pieces(Join(ps, sep), sep) == ps
  {
    PiecesOfPlain(ps[0], sep);
    if |ps| > 1 {
      PiecesJoin(ps[1..], sep);
      PiecesAppend(ps[0], Join(ps[1..], sep), sep);
    }
  }

  /** The first piece is the longest prefix free of `sep`. */
  lemma {:induction false} FirstPiece(s: string, sep: char)
    ensures Pieces(s, sep)[0] <= s
    ensures |Pieces(s, sep)[0]| == |s| || s[|Pieces(s, sep)[0]|] == sep
  {
    if s != [] {
      FirstPiece(s[1..], sep);
    }
  }

  /** Every piece is empty exactly when every character is `sep`. */
  lemma {:induction false} EmptyPieces(s: string, sep: char)
    ensures (forall k :: 0 <= k < |Pieces(s, sep)| ==> Pieces(s, sep)[k] == [])
            <==> (forall i :: 0 <= i < |s| ==> s[i] == sep)
  {
    if s != [] {
      EmptyPieces(s[1..], sep);
      var rest := Pieces(s[1..], sep);
      var ps := Pieces(s, sep);
      if s[0] == sep {
        assert ps == [[]] + rest;
        assert (forall k :: 0 <= k < |ps| ==> ps[k] == [])
               <==> (forall k :: 0 <= k < |rest| ==> rest[k] == []) by {
          forall k | 0 <= k < |rest| ensures rest[k] == ps[k + 1] { }
        }
        assert (forall i :: 0 <= i < |s| ==> s[i] == sep)
               <==> (forall i :: 0 <= i < |s[1..]| ==> s[1..][i] == sep) by {
          forall i | 0 <= i < |s[1..]| ensures s[1..][i] == s[i + 1] { }
        }
      } else {
        assert ps[0] != [];
      }
    }
  }

  /** `s.split(sep)` is empty exactly when `s` is non-empty and made only of `sep`. */
  lemma SplitEmpty(s: string, sep: char)
    ensures Split(s, sep) == [] <==> (s != [] && forall i :: 0 <= i < |s| ==> s[i] == sep)
  {
    EmptyPieces(s, sep);
    if s != [] && (forall i :: 0 <= i < |s| ==> s[i] == sep) {
      assert s[0] == sep;
    }
    if sep in s {
      var ps := Pieces(s, sep);
      var r := DropTrailingEmpty(ps);
      if r == [] {
        assert forall k :: 0 <= k < |ps| ==> ps[k] == [];
      } else {
        assert ps[|r| - 1] != [];
      }
    }
  }

  /** Whenever `s.split(sep)` has elements, its first one is the longest
      `sep`-free prefix of `s`. */
  lemma SplitHead(s: string, sep: char)
    requires Split(s, sep) != []
    ensures Split(s, sep)[0] == Pieces(s, sep)[0]
    ensures Split(s, sep)[0] <= s && sep !in Split(s, sep)[0]
    ensures |Split(s, sep)[0]| == |s| || s[|Split(s, sep)[0]|] == sep
  {
    FirstPiece(s, sep);
    if sep !in s {
      PiecesOfPlain(s, sep);
    }
  }

  /** Splitting a join of `sep`-free pieces whose last one is non-empty gives
      exactly those pieces: the round trip the program's parsers rely on. */
  lemma SplitJoin(ps: seq<string>, sep: char)
    requires |ps| >= 1 && ps[|ps| - 1] != []
    requires forall k :: 0 <= k < |ps| ==> sep !in ps[k]
    ensures Split(Join(ps, sep), sep) == ps
  {
    PiecesJoin(ps, sep);
    if |ps| > 1 {
      var j := Join(ps, sep);
      assert j[|ps[0]|] == sep;
    }
  }

  /** A separator followed by a non-empty `sep`-free tail makes that tail the
      last element of the split. */
  lemma SplitLast(dir: string, name: string, sep: char)
    requires name != [] && sep !in name
    ensures var r := Split(dir + [sep] + name, sep);
            |r| >= 1 && r[|r| - 1] == name
  {
    var s := dir + [sep] + name;
    assert s[|dir|] == sep;
    PiecesAppend(dir, name, sep);
    PiecesOfPlain(name, sep);
  }

  /** A trailing separator does not change the split of a string that holds a
      character other than `sep`. */
  lemma SplitTrailingSeparator(s: string, sep: char)
    requires exists i :: 0 <= i < |s| && s[i] != sep
    ensures Split(s + [sep], sep) == Split(s, sep)
  {
    var t := s + [sep];
    assert t[|s|] == sep;
    PiecesAppend(s, [], sep);
    assert s + [sep] + [] == t;
    var ps := Pieces(s, sep);
    assert Pieces(t, sep) == ps + [[]];
    assert (ps + [[]])[..|ps|] == ps;
    if sep !in s {
      PiecesOfPlain(s, sep);
      assert s != [];
    }
  }

  /** Stripping the front leaves a suffix that starts with a non-white
      character (or is empty), and everything cut off was white space. */
  lemma {:induction false} StripLeadingCuts(s: string)
    ensures var r := StripLeading(s);
            && |r| <= |s| && r == s[|s| - |r|..]
            && (r == [] || !IsWhitespace(r[0]))
            && (forall k :: 0 <= k < |s| - |r| ==> IsWhitespace(s[k]))
  {
    if s != [] && IsWhitespace(s[0]) {
      StripLeadingCuts(s[1..]);
      var r := StripLeading(s);
      assert s[1..][|s| - 1 - |r|..] == s[|s| - |r|..];
      forall k | 0 <= k < |s| - |r| ensures IsWhitespace(s[k]) {
        if k > 0 {
          assert s[k] == s[1..][k - 1];
        }
      }
    }
  }

  /** Stripping the back leaves a prefix that ends with a non-white
      character (or is empty), and everything cut off was white space. */
  lemma {:induction false} StripTrailingCuts(s: string)
    ensures var r := StripTrailing(s);
            && r <= s
            && (r == [] || !IsWhitespace(r[|r| - 1]))
            && (forall k :: |r| <= k < |s| ==> IsWhitespace(s[k]))
  {
    if s != [] && IsWhitespace(s[|s| - 1]) {
      StripTrailingCuts(s[..|s| - 1]);
      var r := StripTrailing(s);
      forall k | |r| <= k < |s| ensures IsWhitespace(s[k]) {
        if k < |s| - 1 {
          assert s[k] == s[..|s| - 1][k];
        }
      }
    }
  }

  /** `(" " + x).strip()` is `x` when `x` neither starts nor ends with white space. */
  lemma StripPadded(x: string)
    requires x != [] && !IsWhitespace(x[0]) && !IsWhitespace(x[|x| - 1])
    ensures Strip([' '] + x) == x
  {
    assert ([' '] + x)[1..] == x;
    assert StripLeading(x) == x;
  }

  /** The first `c` of `p + [c] + q` is the separator when `p` has none. */
  lemma IndexOfCharAfter(p: string, c: char, q: string)
    requires c !in p
    ensures IndexOfChar(p + [c] + q, c) == |p|
  {
    var s := p + [c] + q;
    assert s[|p|] == c;
    forall k | 0 <= k < |p| ensures s[k] != c {
      assert s[k] == p[k];
    }
  }

  /** The last `c` of `p + [c] + q` is the separator when `q` has none. */
  lemma LastIndexOfBefore(p: string, c: char, q: string)
    requires c !in q
    ensures LastIndexOf(p + [c] + q, c) == |p|
  {
    var s := p + [c] + q;
    var r := LastIndexOf(s, c);
    assert s[|p|] == c;
  }
}
