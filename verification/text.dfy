/** The JavaScript string operations the app relies on, over `string`
    (a sequence of Unicode scalar values). */
module Text {

  /** The characters `String.prototype.trim` removes: ECMAScript
      WhiteSpace (TAB, VT, FF, ZWNBSP and every space separator) and
      LineTerminator (LF, CR, LS, PS). */
  predicate IsWhiteSpace(c: char) {
    || c == '\t' || c == '\n' || c == '\U{000B}' || c == '\U{000C}' || c == '\r'
    || c == ' ' || c == '\U{00A0}' || c == '\U{1680}' || ('\U{2000}' <= c <= '\U{200A}')
    || c == '\U{2028}' || c == '\U{2029}' || c == '\U{202F}' || c == '\U{205F}'
    || c == '\U{3000}' || c == '\U{FEFF}'
  }

  predicate IsBlank(s: string) {
    forall i :: 0 <= i < |s| ==> IsWhiteSpace(s[i])
  }

  /** Drops the leading white space: what is dropped is blank and what is
      kept is a suffix of `s` that does not start with white space. */
  function TrimStart(s: string): (r: string)
    ensures |r| <= |s| && r == s[|s| - |r|..]
    ensures IsBlank(s[..|s| - |r|])
    ensures r == [] || !IsWhiteSpace(r[0])
  {
    if s != [] && IsWhiteSpace(s[0]) then TrimStart(s[1..]) else s
  }

  /** Drops the trailing white space: what is dropped is blank and what is
      kept is a prefix of `s` that does not end with white space. */
  function TrimEnd(s: string): (r: string)
    ensures |r| <= |s| && r == s[..|r|]
    ensures IsBlank(s[|r|..])
    ensures r == [] || !IsWhiteSpace(r[|r| - 1])
  {
    if s != [] && IsWhiteSpace(s[|s| - 1]) then TrimEnd(s[..|s| - 1]) else s
  }

  /** `s.trim()`: white space removed from both ends; the result is empty
      exactly when `s` is blank, and otherwise starts and ends with a
      character that is not white space. */
  function Trim(s: string): (r: string)
    ensures r == [] <==> IsBlank(s)
    ensures r == [] || (!IsWhiteSpace(r[0]) && !IsWhiteSpace(r[|r| - 1]))
  {
    var t := TrimStart(s);
    var r := TrimEnd(t);
    assert r == [] ==> IsBlank(s) by {
      if r == [] {
        BlankConcat(s[..|s| - |t|], t);
        assert s == s[..|s| - |t|] + t;
      }
    }
    r
  }

  lemma BlankConcat(a: string, b: string)
    requires IsBlank(a) && IsBlank(b)
    ensures IsBlank(a + b)
  {
  }

  /** What `Trim` keeps is a contiguous part of `s`, and all it drops on
      either side is white space. */
  lemma TrimIsInfix(s: string)
    ensures exists i :: 0 <= i <= |s| - |Trim(s)| && Trim(s) == s[i..i + |Trim(s)|]
                        && IsBlank(s[..i]) && IsBlank(s[i + |Trim(s)|..])
  {
    var t := TrimStart(s);
    var r := TrimEnd(t);
    assert Trim(s) == r;
    var i := |s| - |t|;
    assert t == s[i..];
    assert s[i..i + |r|] == r by {
      assert r == t[..|r|];
    }
    assert IsBlank(s[i + |r|..]) by {
      assert s[i + |r|..] == t[|r|..];
    }
    assert IsBlank(s[..i]);
  }

  function UpperChar(c: char): char {
    if 'a' <= c <= 'z' then (c as int - 32) as char else c
  }

  function LowerChar(c: char): char {
    if 'A' <= c <= 'Z' then (c as int + 32) as char else c
  }

  /** `s.toUpperCase()` on ASCII letters. */
  function ToUpper(s: string): (r: string)
    ensures |r| == |s|
    ensures forall i :: 0 <= i < |r| ==> !('a' <= r[i] <= 'z') && LowerChar(r[i]) == LowerChar(s[i])
  {
    seq(|s|, i requires 0 <= i < |s| => UpperChar(s[i]))
  }

  /** `s.toLowerCase()` on ASCII letters. */
  function ToLower(s: string): (r: string)
    ensures |r| == |s|
    ensures forall i :: 0 <= i < |r| ==> !('A' <= r[i] <= 'Z') && UpperChar(r[i]) == UpperChar(s[i])
  {
    seq(|s|, i requires 0 <= i < |s| => LowerChar(s[i]))
  }

  /** Two strings agree ignoring case exactly when their lower-case forms
      agree, so anything computed from `ToUpper` and `ToLower` of a string is
      insensitive to its case. */
  lemma SameUpperSameLower(a: string, b: string)
    requires ToUpper(a) == ToUpper(b)
    ensures ToLower(a) == ToLower(b)
  {
    forall i | 0 <= i < |a|
      ensures ToLower(a)[i] == ToLower(b)[i]
    {
      assert ToUpper(a)[i] == ToUpper(b)[i];
    }
  }

  /** The length JavaScript reports: UTF-16 code units, two for every
      character outside the Basic Multilingual Plane. */
  function Utf16Length(s: string): (n: nat)
    ensures |s| <= n <= 2 * |s|
    ensures |s| == 1 ==> n == (if s[0] as int > 0xFFFF then 2 else 1)
  {
    if s == [] then 0 else (if s[0] as int > 0xFFFF then 2 else 1) + Utf16Length(s[1..])
  }

  /** The length of a concatenation is the sum of the lengths; with the
      one-character case this fixes the length of every string. */
  lemma {:induction false} Utf16Append(a: string, b: string)
    ensures Utf16Length(a + b) == Utf16Length(a) + Utf16Length(b)
  {
    if a != [] {
      assert (a + b)[1..] == a[1..] + b;
      Utf16Append(a[1..], b);
    } else {
      assert a + b == b;
    }
  }

  /** `xs.join(sep)`: empty for no pieces and the piece itself for one;
      `JoinPieceAt`, `JoinSeparatorAt` and `JoinEnds` say where every piece
      and separator stands. */
  function Join(xs: seq<string>, sep: string): (r: string)
    ensures xs == [] ==> r == ""
    ensures |xs| == 1 ==> r == xs[0]
  {
    if xs == [] then ""
    else if |xs| == 1 then xs[0]
    else xs[0] + sep + Join(xs[1..], sep)
  }

  /** Where the `i`-th piece starts in `Join(xs, sep)`. */
  function JoinOffset(xs: seq<string>, sep: string, i: nat): nat
    requires i < |xs|
  {
    if i == 0 then 0 else |xs[0]| + |sep| + JoinOffset(xs[1..], sep, i - 1)
  }

  /** Joining keeps every piece, in order: the `i`-th piece stands at
      `JoinOffset(xs, sep, i)`, and each piece starts after the previous
      piece and its separator. */
  lemma {:induction false} JoinPieceAt(xs: seq<string>, sep: string, i: nat)
    requires i < |xs|
    ensures JoinOffset(xs, sep, i) + |xs[i]| <= |Join(xs, sep)|
    ensures Join(xs, sep)[JoinOffset(xs, sep, i)..JoinOffset(xs, sep, i) + |xs[i]|] == xs[i]
    ensures i > 0 ==> JoinOffset(xs, sep, i) == JoinOffset(xs, sep, i - 1) + |xs[i - 1]| + |sep|
  {
    if i > 0 {
      JoinPieceAt(xs[1..], sep, i - 1);
      var rest := Join(xs[1..], sep);
      var k := JoinOffset(xs[1..], sep, i - 1);
      assert Join(xs, sep) == (xs[0] + sep) + rest;
      assert Join(xs, sep)[|xs[0]| + |sep| + k..|xs[0]| + |sep| + k + |xs[i]|] == rest[k..k + |xs[i]|];
    } else if |xs| > 1 {
      assert Join(xs, sep) == xs[0] + (sep + Join(xs[1..], sep));
    }
  }

  /** Between the `i`-th piece and the next stands exactly the separator. */
  lemma {:induction false} JoinSeparatorAt(xs: seq<string>, sep: string, i: nat)
    requires i + 1 < |xs|
    ensures var end := JoinOffset(xs, sep, i) + |xs[i]|;
            end + |sep| == JoinOffset(xs, sep, i + 1) <= |Join(xs, sep)|
            && Join(xs, sep)[end..end + |sep|] == sep
  {
    var rest := Join(xs[1..], sep);
    assert Join(xs, sep) == xs[0] + (sep + rest);
    if i > 0 {
      JoinSeparatorAt(xs[1..], sep, i - 1);
      var d := |xs[0]| + |sep|;
      var end := JoinOffset(xs[1..], sep, i - 1) + |xs[i]|;
      assert Join(xs, sep)[d + end..d + end + |sep|] == rest[end..end + |sep|];
    } else {
      assert JoinOffset(xs, sep, 1) == |xs[0]| + |sep| + JoinOffset(xs[1..], sep, 0);
    }
  }

  /** Nothing follows the last piece. */
  lemma {:induction false} JoinEnds(xs: seq<string>, sep: string)
    requires xs != []
    ensures JoinOffset(xs, sep, |xs| - 1) + |xs[|xs| - 1]| == |Join(xs, sep)|
  {
    if |xs| > 1 {
      JoinEnds(xs[1..], sep);
      assert xs[1..][|xs| - 2] == xs[|xs| - 1];
    }
  }

  /** `s.split(c)` for a one-character separator: the pieces between the
      separators, none of which contains `c`; the empty string gives one
      empty piece. */
  function Split(s: string, c: char): (r: seq<string>)
    ensures |r| >= 1
    ensures forall i :: 0 <= i < |r| ==> c !in r[i]
  {
    if s == [] then [[]]
    else
      var tail := Split(s[1..], c);
      if s[0] == c then [[]] + tail else [[s[0]] + tail[0]] + tail[1..]
  }

  /** Splitting loses nothing: joining the pieces back with the separator
      gives the original string. */
  lemma {:induction false} JoinSplit(s: string, c: char)
    ensures Join(Split(s, c), [c]) == s
  {
    if s != [] {
      var tail := Split(s[1..], c);
      JoinSplit(s[1..], c);
      if s[0] == c {
        assert Split(s, c) == [[]] + tail;
        assert ([[]] + tail)[1..] == tail;
      } else {
        var r := [[s[0]] + tail[0]] + tail[1..];
        assert Split(s, c) == r;
        if |tail| > 1 {
          assert r[1..] == tail[1..];
          assert Join(tail, [c]) == tail[0] + [c] + Join(tail[1..], [c]);
        }
      }
    }
  }

  /** A prefix free of the separator becomes the head of the first piece. */
  lemma {:induction false} SplitFreePrefix(a: string, rest: string, c: char)
    requires c !in a
    ensures Split(a + rest, c) == [a + Split(rest, c)[0]] + Split(rest, c)[1..]
  {
    if a != [] {
      assert (a + rest)[1..] == a[1..] + rest;
      SplitFreePrefix(a[1..], rest, c);
      var r := Split(rest, c);
      assert (a + rest)[0] == a[0] && a[0] != c;
      assert [a[0]] + (a[1..] + r[0]) == a + r[0];
    } else {
      var r := Split(rest, c);
      assert a + rest == rest && a + r[0] == r[0];
      assert [r[0]] + r[1..] == r;
    }
  }

  /** Joining pieces that do not contain the separator and splitting the
      result gives the pieces back. */
  lemma {:induction false} SplitJoin(xs: seq<string>, c: char)
    requires |xs| >= 1
    requires forall i :: 0 <= i < |xs| ==> c !in xs[i]
    ensures Split(Join(xs, [c]), c) == xs
  {
    if |xs| == 1 {
      SplitFreePrefix(xs[0], [], c);
      assert xs[0] + [] == xs[0];
    } else {
      var b := Join(xs[1..], [c]);
      SplitJoin(xs[1..], c);
      assert Join(xs, [c]) == xs[0] + ([c] + b);
      SplitFreePrefix(xs[0], [c] + b, c);
      assert ([c] + b)[1..] == b;
      assert Split([c] + b, c) == [[]] + xs[1..];
      assert xs[0] + [] == xs[0];
      assert [xs[0]] + xs[1..] == xs;
    }
  }

  /** Splitting at a separator splits the two sides apart: the pieces of
      `s + c + t` are those of `s` followed by those of `t`. */
  lemma {:induction false} SplitAtSeparator(s: string, t: string, c: char)
    ensures Split(s + [c] + t, c) == Split(s, c) + Split(t, c)
  {
    if s == [] {
      assert s + [c] + t == [c] + t;
      SplitCons(c, t, c);
    } else {
      var rest := s[1..] + [c] + t;
      assert s + [c] + t == [s[0]] + rest && s == [s[0]] + s[1..];
      SplitCons(s[0], rest, c);
      SplitCons(s[0], s[1..], c);
      SplitAtSeparator(s[1..], t, c);
      FirstPieceAppend(s[0], c, Split(s[1..], c), Split(t, c));
    }
  }

  /** One step of `Split`. */
  lemma SplitCons(x: char, rest: string, c: char)
    ensures Split([x] + rest, c)
            == if x == c then [[]] + Split(rest, c) else [[x] + Split(rest, c)[0]] + Split(rest, c)[1..]
  {
    assert ([x] + rest)[0] == x && ([x] + rest)[1..] == rest;
  }

  lemma FirstPieceAppend(x: char, c: char, a: seq<string>, b: seq<string>)
    requires |a| >= 1
    ensures (if x == c then [[]] + (a + b) else [[x] + (a + b)[0]] + (a + b)[1..])
            == (if x == c then [[]] + a else [[x] + a[0]] + a[1..]) + b
  {
    if x != c {
      assert (a + b)[0] == a[0] && (a + b)[1..] == a[1..] + b;
    }
  }

  /** `pieces.filter(p => p.trim() !== '')`: a piece is kept exactly when
      it is not blank; the kept pieces stay untrimmed and, by
      `KeepNonBlankAppend`, in their original order. */
  function KeepNonBlank(pieces: seq<string>): (r: seq<string>)
    ensures |r| <= |pieces|
    ensures forall i :: 0 <= i < |r| ==> !IsBlank(r[i])
    ensures forall p :: p in r <==> p in pieces && !IsBlank(p)
    ensures |pieces| == 1 ==> r == (if IsBlank(pieces[0]) then [] else pieces)
  {
    if pieces == [] then []
    else
      var rest := KeepNonBlank(pieces[1..]);
      assert forall p :: p in pieces <==> p == pieces[0] || p in pieces[1..];
      if Trim(pieces[0]) != "" then [pieces[0]] + rest else rest
  }

  /** The filter works piece by piece: filtering a concatenation is
      concatenating the filtered parts. */
  lemma {:induction false} KeepNonBlankAppend(a: seq<string>, b: seq<string>)
    ensures KeepNonBlank(a + b) == KeepNonBlank(a) + KeepNonBlank(b)
  {
    if a == [] {
      assert a + b == b;
    } else {
      assert (a + b)[0] == a[0] && (a + b)[1..] == a[1..] + b;
      KeepNonBlankAppend(a[1..], b);
    }
  }

  /** Filtering a list none of whose pieces is blank keeps every piece. */
  lemma {:induction false} KeepNonBlankKeepsAll(pieces: seq<string>)
    requires forall i :: 0 <= i < |pieces| ==> !IsBlank(pieces[i])
    ensures KeepNonBlank(pieces) == pieces
  {
    if pieces != [] {
      KeepNonBlankKeepsAll(pieces[1..]);
      assert [pieces[0]] + pieces[1..] == pieces;
    }
  }
}
