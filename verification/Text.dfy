/** Splitting and joining strings, as JavaScript's `split` and `join` do. */
module Text {

  /** `s.split(separator)`: always at least one piece. */
  function Split(s: string, sep: char -> bool): (r: seq<string>)
    ensures |r| >= 1
  {
    if s == "" then [""]
    else
      var rest := Split(s[1..], sep);
      if sep(s[0]) then [""] + rest else [[s[0]] + rest[0]] + rest[1..]
  }

  /** `ps.join(glue)`. */
  function Join(ps: seq<string>, glue: string): string {
    if ps == [] then "" else if |ps| == 1 then ps[0] else ps[0] + glue + Join(ps[1..], glue)
  }

  ghost predicate Free(s: string, sep: char -> bool) {
    forall i :: 0 <= i < |s| ==> !sep(s[i])
  }

  /** No piece contains a separator. */
  lemma {:induction false} PiecesFree(s: string, sep: char -> bool)
    ensures forall p :: p in Split(s, sep) ==> Free(p, sep)
    ensures Free(s, sep) ==> Split(s, sep) == [s]
  {
    if s != "" {
      PiecesFree(s[1..], sep);
      var rest := Split(s[1..], sep);
      assert rest[0] in rest;
      forall p | p in Split(s, sep) ensures Free(p, sep) {
        if sep(s[0]) {
          assert p == "" || p in rest;
        } else {
          assert p == [s[0]] + rest[0] || p in rest[1..];
          assert p in rest[1..] ==> p in rest;
        }
      }
      if Free(s, sep) {
        assert Free(s[1..], sep) && !sep(s[0]);
        assert rest[1..] == [] && [s[0]] + rest[0] == s;
      }
    }
  }

  /** Characters of pieces are characters of the string. */
  lemma {:induction false} PiecesWithin(s: string, sep: char -> bool, p: string, c: char)
    requires p in Split(s, sep) && c in p
    ensures c in s
  {
    if s != "" {
      var rest := Split(s[1..], sep);
      if p in rest {
        PiecesWithin(s[1..], sep, p, c);
      } else if !sep(s[0]) {
        assert p in rest[1..] ==> p in rest;
        assert p == [s[0]] + rest[0];
        if c != s[0] { PiecesWithin(s[1..], sep, rest[0], c); }
      }
    }
  }

  /** Joining the pieces with the separator gives the string back. */
  lemma {:induction false} JoinSplit(s: string, sep: char -> bool, k: char)
    requires forall i :: 0 <= i < |s| && sep(s[i]) ==> s[i] == k
    ensures Join(Split(s, sep), [k]) == s
  {
    if s != "" {
      JoinSplit(s[1..], sep, k);
      var rest := Split(s[1..], sep);
      if sep(s[0]) {
        assert ([""] + rest)[1..] == rest;
      } else {
        assert ([[s[0]] + rest[0]] + rest[1..])[1..] == rest[1..];
      }
    }
  }

  lemma {:induction false} SplitPrefix(p: string, t: string, sep: char -> bool)
    requires Free(p, sep)
    ensures Split(p + t, sep) == [p + Split(t, sep)[0]] + Split(t, sep)[1..]
  {
    if p == "" {
      assert p + t == t && p + Split(t, sep)[0] == Split(t, sep)[0];
    } else {
      assert (p + t)[1..] == p[1..] + t && (p + t)[0] == p[0];
      SplitPrefix(p[1..], t, sep);
      assert [p[0]] + (p[1..] + Split(t, sep)[0]) == p + Split(t, sep)[0];
    }
  }

  lemma JoinCons(ps: seq<string>, glue: string)
    requires |ps| > 1
    ensures Join(ps, glue) == ps[0] + (glue + Join(ps[1..], glue))
  {
    assert ps[0] + glue + Join(ps[1..], glue) == ps[0] + (glue + Join(ps[1..], glue));
  }

  lemma SplitHere(k: char, t: string, sep: char -> bool)
    requires sep(k)
    ensures Split([k] + t, sep) == [""] + Split(t, sep)
  {
    assert ([k] + t)[1..] == t;
  }

  /** Splitting what was joined gives the pieces back. */
  lemma {:induction false} SplitJoin(ps: seq<string>, sep: char -> bool, k: char)
    requires ps != [] && sep(k) && forall p :: p in ps ==> Free(p, sep)
    ensures Split(Join(ps, [k]), sep) == ps
  {
    assert ps[0] in ps;
    if |ps| == 1 {
      PiecesFree(ps[0], sep);
    } else {
      var tail := Join(ps[1..], [k]);
      SplitJoin(ps[1..], sep, k);
      JoinCons(ps, [k]);
      SplitPrefix(ps[0], [k] + tail, sep);
      SplitHere(k, tail, sep);
      assert ([""] + ps[1..])[1..] == ps[1..] && ps[0] + "" == ps[0];
      assert ps == [ps[0]] + ps[1..];
    }
  }

  lemma SameHead(h: string, a: string, b: string)
    ensures h + a == h + b <==> a == b
  {
    if h + a == h + b {
      assert a == (h + a)[|h|..];
      assert b == (h + b)[|h|..];
    }
  }
}
