/**
 * The part of Go's `strings` and `bytes` packages that the converter relies on,
 * on strings taken as sequences of runes. Every `sep`, `pat` and cut set the
 * converter passes is an ASCII literal, so a rune-level model agrees with Go's
 * byte-level one on valid UTF-8 text.
 */
module GoStrings {
  import opened Seqs

  /** strings.HasPrefix */
  predicate HasPrefix(s: string, prefix: string) {
    |prefix| <= |s| && s[..|prefix|] == prefix
  }

  /** `sub` occurs in `s` at offset `j`. */
  predicate MatchAt(s: string, sub: string, j: int) {
    0 <= j <= |s| && HasPrefix(s[j..], sub)
  }

  /** strings.Index: the offset of an occurrence of `sub` in `s`, or -1; that it
    * is the first occurrence is IndexIsFirst. */
  function Index(s: string, sub: string): (r: int)
    ensures -1 <= r <= |s|
    ensures r >= 0 ==> MatchAt(s, sub, r)
    decreases |s|
  {
    if HasPrefix(s, sub) then
      assert s[0..] == s;
      0
    else if s == [] then -1
    else
      var k := Index(s[1..], sub);
      assert k >= 0 ==> s[k + 1..] == s[1..][k..];
      if k < 0 then -1 else k + 1
  }

  /** No occurrence comes before the one Index finds, and there is none at all
    * when it finds none. */
  lemma {:induction false} IndexIsFirst(s: string, sub: string)
    ensures forall j :: (Index(s, sub) < 0 || j < Index(s, sub)) ==> !MatchAt(s, sub, j)
    decreases |s|
  {
    assert s[0..] == s;
    if !HasPrefix(s, sub) && s != [] {
      IndexIsFirst(s[1..], sub);
      assert forall j :: 1 <= j <= |s| ==> s[j..] == s[1..][j - 1..];
      assert forall j :: 1 <= j <= |s| ==> (MatchAt(s, sub, j) <==> MatchAt(s[1..], sub, j - 1));
    }
  }

  /** strings.Contains: `sub` occurs somewhere in `s`. */
  predicate Contains(s: string, sub: string) {
    exists j :: 0 <= j <= |s| && MatchAt(s, sub, j)
  }

  /** Go defines Contains as `Index(s, substr) >= 0`. */
  lemma ContainsIndex(s: string, sub: string)
    ensures Contains(s, sub) <==> Index(s, sub) >= 0
  {
    IndexIsFirst(s, sub);
  }

  /** For a one-rune pattern, Contains and Index find that rune. */
  lemma IndexOfRune(s: string, c: char)
    ensures Contains(s, [c]) <==> c in s
    ensures Index(s, [c]) >= 0 ==> Index(s, [c]) < |s| && s[Index(s, [c])] == c
    ensures c !in s ==> Index(s, [c]) == -1
    ensures |s| > 0 && s[0] == c ==> Index(s, [c]) == 0
  {
    forall j | 0 <= j <= |s|
      ensures MatchAt(s, [c], j) <==> j < |s| && s[j] == c
    {
      MatchRune(s, c, j);
    }
    IndexIsFirst(s, [c]);
  }

  /** A one-rune pattern matches exactly where that rune is. */
  lemma MatchRune(s: string, c: char, j: int)
    requires 0 <= j <= |s|
    ensures MatchAt(s, [c], j) <==> j < |s| && s[j] == c
  {
    if j < |s| {
      assert s[j..][..1] == [s[j]];
    }
  }

  /** strings.Replace(s, pat, rep, 1): the first occurrence of `pat` is replaced. */
  function ReplaceFirst(s: string, pat: string, rep: string): string {
    var i := Index(s, pat);
    if i < 0 then s else s[..i] + rep + s[i + |pat|..]
  }

  /** Replacing a rune that does not occur leaves the string as it is. */
  lemma ReplaceFirstAbsent(s: string, c: char, rep: string)
    requires c !in s
    ensures ReplaceFirst(s, [c], rep) == s
  {
    IndexOfRune(s, c);
  }

  /** strings.Replace(s, pat, rep, -1): every non-overlapping occurrence, scanning
    * left to right, is replaced; an empty `pat` matches before every rune and at
    * the end, as in Go. */
  function ReplaceAll(s: string, pat: string, rep: string): string
    decreases |s|, |pat| == 0
  {
    if pat == [] then
      (if s == [] then rep else rep + [s[0]] + ReplaceAll(s[1..], pat, rep))
    else if HasPrefix(s, pat) then rep + ReplaceAll(s[|pat|..], pat, rep)
    else if s == [] then []
    else [s[0]] + ReplaceAll(s[1..], pat, rep)
  }

  /** Removing a pattern that does not occur leaves the string as it is. */
  lemma {:induction false} ReplaceAllAbsent(s: string, pat: string, rep: string)
    requires pat != []
    requires !Contains(s, pat)
    ensures ReplaceAll(s, pat, rep) == s
    decreases |s|
  {
    if s != [] {
      assert s[0..] == s;
      assert !MatchAt(s, pat, 0);
      assert forall j :: 0 <= j <= |s| - 1 ==> s[1..][j..] == s[j + 1..];
      assert forall j :: 0 <= j <= |s| - 1 ==> (MatchAt(s[1..], pat, j) <==> MatchAt(s, pat, j + 1));
      assert !Contains(s[1..], pat);
      ReplaceAllAbsent(s[1..], pat, rep);
    }
  }

  /** No two slashes side by side in `r`. */
  predicate NoDoubleSlash(r: string) {
    forall i :: 0 <= i < |r| - 1 ==> !(r[i] == '/' && r[i + 1] == '/')
  }

  /** Removing every "//" leaves no two slashes side by side: a slash that is
    * kept is not followed by another in the input, and the character after it
    * is kept too. */
  lemma {:induction false} NoDoubleSlashLeft(s: string)
    ensures NoDoubleSlash(ReplaceAll(s, "//", ""))
    decreases |s|
  {
    var r := ReplaceAll(s, "//", "");
    if s != [] {
      if HasPrefix(s, "//") {
        NoDoubleSlashLeft(s[2..]);
        assert r == ReplaceAll(s[2..], "//", "");
      } else {
        var t := ReplaceAll(s[1..], "//", "");
        NoDoubleSlashLeft(s[1..]);
        assert r == [s[0]] + t;
        if s[0] == '/' && |t| > 0 {
          assert s[1] != '/' by {
            assert s[..2] != "//";
          }
          assert !HasPrefix(s[1..], "//");
          assert t[0] == s[1];
        }
        forall i | 0 < i < |r| - 1
          ensures !(r[i] == '/' && r[i + 1] == '/')
        {
          assert r[i] == t[i - 1] && r[i + 1] == t[i];
          assert !(t[i - 1] == '/' && t[i] == '/');
        }
      }
    }
  }

  /** strings.TrimPrefix */
  function TrimPrefix(s: string, prefix: string): (r: string)
    ensures HasPrefix(s, prefix) ==> prefix + r == s
    ensures !HasPrefix(s, prefix) ==> r == s
  {
    if HasPrefix(s, prefix) then s[|prefix|..] else s
  }

  /** strings.TrimLeft: drops the longest prefix made only of runes from `cutset`. */
  function TrimLeft(s: string, cutset: string): (r: string)
    ensures |r| <= |s| && r == s[|s| - |r|..]
    ensures forall i :: 0 <= i < |s| - |r| ==> s[i] in cutset
    ensures r == [] || r[0] !in cutset
    decreases |s|
  {
    if s != [] && s[0] in cutset then TrimLeft(s[1..], cutset) else s
  }

  /** bytes.Count with a one-rune separator: the number of occurrences of `c`. */
  function Count(s: string, c: char): (n: nat)
    ensures n == 0 <==> c !in s
    ensures n <= |s|
  {
    if s == [] then 0 else (if s[0] == c then 1 else 0) + Count(s[1..], c)
  }

  lemma {:induction false} CountAppend(a: string, b: string, c: char)
    ensures Count(a + b, c) == Count(a, c) + Count(b, c)
    decreases |a|
  {
    if a != [] {
      assert (a + b)[1..] == a[1..] + b;
      CountAppend(a[1..], b, c);
    } else {
      assert a + b == b;
    }
  }

  /** Pieces glued back together with the separator between neighbours. */
  function Join(pieces: seq<string>, sep: char): string
    requires |pieces| >= 1
  {
    if |pieces| == 1 then pieces[0] else pieces[0] + [sep] + Join(pieces[1..], sep)
  }

  /** strings.Split with a one-rune separator: the pieces between separators. */
  function Split(s: string, sep: char): (r: seq<string>)
    ensures |r| >= 1
    ensures forall i :: 0 <= i < |r| ==> sep !in r[i]
    decreases |s|
  {
    if s == [] then [[]]
    else
      var rest := Split(s[1..], sep);
      if s[0] == sep then [[]] + rest
      else [[s[0]] + rest[0]] + rest[1..]
  }

  /** Joining the pieces of a split gives the string back. */
  lemma {:induction false} JoinSplit(s: string, sep: char)
    ensures Join(Split(s, sep), sep) == s
    decreases |s|
  {
    if s != [] {
      var rest := Split(s[1..], sep);
      JoinSplit(s[1..], sep);
      if s[0] == sep {
        JoinSplitSep(s, sep, rest);
      } else {
        JoinSplitRune(s, sep, rest);
      }
    }
  }

  /** The step of JoinSplit for a string starting with the separator. */
  lemma JoinSplitSep(s: string, sep: char, rest: seq<string>)
    requires s != [] && s[0] == sep
    requires rest == Split(s[1..], sep) && Join(rest, sep) == s[1..]
    ensures Join(Split(s, sep), sep) == s
  {
    var r := Split(s, sep);
    assert r == [[]] + rest;
    assert r[1..] == rest;
    assert Join(r, sep) == [] + [sep] + s[1..];
    assert s == [s[0]] + s[1..];
  }

  /** The step of JoinSplit for a string starting with another rune. */
  lemma JoinSplitRune(s: string, sep: char, rest: seq<string>)
    requires s != [] && s[0] != sep
    requires rest == Split(s[1..], sep) && Join(rest, sep) == s[1..]
    ensures Join(Split(s, sep), sep) == s
  {
    var r := Split(s, sep);
    assert r == [[s[0]] + rest[0]] + rest[1..];
    if |rest| == 1 {
      assert Join(r, sep) == [s[0]] + rest[0];
    } else {
      assert r[1..] == rest[1..];
      assert Join(r, sep) == [s[0]] + (rest[0] + [sep] + Join(rest[1..], sep));
    }
    assert s == [s[0]] + s[1..];
  }

  /** A split has one more piece than there are separators. */
  lemma {:induction false} SplitCount(s: string, sep: char)
    ensures |Split(s, sep)| == Count(s, sep) + 1
    decreases |s|
  {
    if s != [] {
      SplitCount(s[1..], sep);
    }
  }

  /** What Join puts before a piece sitting after the pieces `left`. */
  function JoinedBefore(left: seq<string>, sep: char): string {
    if left == [] then [] else Join(left, sep) + [sep]
  }

  /** What Join puts after a piece sitting before the pieces `right`. */
  function JoinedAfter(right: seq<string>, sep: char): string {
    if right == [] then [] else [sep] + Join(right, sep)
  }

  /** Join seen from one piece: what comes before it, the piece, what comes after. */
  lemma {:induction false} JoinAround(left: seq<string>, x: string, right: seq<string>, sep: char)
    ensures Join(left + [x] + right, sep) == JoinedBefore(left, sep) + x + JoinedAfter(right, sep)
    decreases |left|
  {
    var all := left + [x] + right;
    var ja := JoinedAfter(right, sep);
    if left == [] {
      assert all == [x] + right;
      assert all[1..] == right;
      assert x + [] == x;
    } else {
      var a, rest := left[0], left[1..];
      assert all[0] == a;
      assert all[1..] == rest + [x] + right;
      JoinAround(rest, x, right, sep);
      var head, jb := a + [sep], JoinedBefore(rest, sep);
      assert Join(all, sep) == head + ((jb + x) + ja);
      if rest == [] {
        assert jb == [];
        assert JoinedBefore(left, sep) == head + jb;
      } else {
        ConcatAssoc(head, Join(rest, sep), [sep]);
        assert JoinedBefore(left, sep) == head + jb;
      }
      ConcatAssoc(head, jb + x, ja);
      ConcatAssoc(head, jb, x);
    }
  }

  /** A rune that is neither the separator nor in any piece is not in the join. */
  lemma {:induction false} JoinFree(pieces: seq<string>, sep: char, c: char)
    requires |pieces| >= 1
    requires c != sep
    requires forall i :: 0 <= i < |pieces| ==> c !in pieces[i]
    ensures c !in Join(pieces, sep)
    decreases |pieces|
  {
    if |pieces| > 1 {
      JoinFree(pieces[1..], sep, c);
    }
  }

  /** Once the pattern's first rune does not occur before a match, the match is
    * the first one and ReplaceFirst swaps exactly it. */
  lemma ReplaceFirstAfterFree(before: string, c: char, rest: string, after: string, rep: string)
    requires c !in before
    ensures ReplaceFirst(before + ([c] + rest) + after, [c] + rest, rep) == before + rep + after
  {
    var pat := [c] + rest;
    var s := before + pat + after;
    assert s[|before|..] == pat + after;
    assert MatchAt(s, pat, |before|);
    var i := Index(s, pat);
    IndexIsFirst(s, pat);
    assert 0 <= i <= |before|;
    assert MatchAt(s, pat, i);
    assert s[i..][0] == s[i] == c;
    assert i == |before| by {
      assert forall j :: 0 <= j < |before| ==> s[j] == before[j];
    }
    assert s[..i] == before;
    assert s[i + |pat|..] == after;
  }

  /** Split undoes Join whenever no piece holds the separator. */
  lemma {:induction false} SplitJoin(pieces: seq<string>, sep: char)
    requires |pieces| >= 1
    requires forall i :: 0 <= i < |pieces| ==> sep !in pieces[i]
    ensures Split(Join(pieces, sep), sep) == pieces
    decreases |pieces|
  {
    var x := pieces[0];
    if |pieces| == 1 {
      SplitFree(x, [], sep);
      assert x + [] == x;
    } else {
      var rest := pieces[1..];
      var tail := [sep] + Join(rest, sep);
      SplitJoin(rest, sep);
      SplitAfterSep(Join(rest, sep), sep);
      assert Split(tail, sep) == [[]] + rest;
      SplitFree(x, tail, sep);
      assert Join(pieces, sep) == x + tail;
      assert x + [] == x;
      assert [x] + rest == pieces;
    }
  }

  /** Splitting `[sep] + t` yields an empty first piece and then the pieces of `t`. */
  lemma SplitAfterSep(t: string, sep: char)
    ensures Split([sep] + t, sep) == [[]] + Split(t, sep)
  {
    assert ([sep] + t)[1..] == t;
  }

  /** A separator-free `x` in front of `t` becomes part of the first piece of `t`,
    * and is a piece of its own when `t` is empty or starts with the separator. */
  lemma {:induction false} SplitFree(x: string, t: string, sep: char)
    requires sep !in x
    ensures Split(x + t, sep) == [x + Split(t, sep)[0]] + Split(t, sep)[1..]
    decreases |x|
  {
    var st := Split(t, sep);
    if x != [] {
      var s := x + t;
      assert s[0] == x[0] && s[0] != sep;
      assert s[1..] == x[1..] + t;
      SplitFree(x[1..], t, sep);
      var rest := Split(s[1..], sep);
      assert rest == [x[1..] + st[0]] + st[1..];
      assert Split(s, sep) == [[s[0]] + rest[0]] + rest[1..];
      assert [x[0]] + (x[1..] + st[0]) == x + st[0];
    } else {
      assert x + t == t;
      assert x + st[0] == st[0];
      assert [st[0]] + st[1..] == st;
    }
  }

  /** Upper case of one rune, as unicode.ToUpper gives it for every rune whose upper
    * case is ASCII: the ASCII letters and U+0131, U+017F; any other rune is kept. */
  function UpperRune(c: char): (u: char)
    ensures 'a' <= c <= 'z' ==> u as int == c as int - 32
    ensures c == '\U{0131}' ==> u == 'I'
    ensures c == '\U{017F}' ==> u == 'S'
    ensures !('a' <= c <= 'z') && c != '\U{0131}' && c != '\U{017F}' ==> u == c
  {
    if 'a' <= c <= 'z' then (c as int - 32) as char
    else if c == '\U{0131}' then 'I'
    else if c == '\U{017F}' then 'S'
    else c
  }

  /** strings.ToUpper, rune by rune. */
  function ToUpper(s: string): (r: string)
    ensures |r| == |s|
    ensures forall i :: 0 <= i < |s| ==> r[i] == UpperRune(s[i])
  {
    seq(|s|, i requires 0 <= i < |s| => UpperRune(s[i]))
  }
}
