/**
 The name conversions of packages/core/src/matterbridgeFactory.ts, on ASCII strings, and the exact
 sets of strings on which they undo each other.
 */
module CaseCodec {
  import opened Text

  predicate IsUpper(c: char) { 'A' <= c <= 'Z' }

  predicate IsLower(c: char) { 'a' <= c <= 'z' }

  function ToLower(c: char): char { if IsUpper(c) then c + ' ' else c }

  function ToUpper(c: char): char { if IsLower(c) then c - ' ' else c }

  predicate IsSeparator(c: char) { c == '-' || c == '_' }

  /** The letters and their two cases, by their codes. */
  lemma Alphabet(c: char)
    ensures IsUpper(c) <==> 65 <= c as int <= 90
    ensures IsLower(c) <==> 97 <= c as int <= 122
    ensures IsSeparator(c) <==> c as int == 45 || c as int == 95
    ensures ToLower(c) as int == c as int + if 65 <= c as int <= 90 then 32 else 0
    ensures ToUpper(c) as int == c as int - if 97 <= c as int <= 122 then 32 else 0
  {}

  // ---------- snakeCase ----------

  /** The rest of `snakeCase` when `need` is the loop's flag. */
  function SnakeFrom(s: string, need: bool): string {
    if s == "" then ""
    else if IsUpper(s[0]) then (if need then "-" else "") + [ToLower(s[0])] + SnakeFrom(s[1..], false)
    else [s[0]] + SnakeFrom(s[1..], true)
  }

  function Snake(s: string): string { SnakeFrom(s, false) }

  lemma SnakeCons(done: string, s: string, need: bool)
    requires s != ""
    ensures done + SnakeFrom(s, need) ==
            if !IsUpper(s[0]) then done + [s[0]] + SnakeFrom(s[1..], true)
            else if need then done + "-" + [ToLower(s[0])] + SnakeFrom(s[1..], false)
            else done + [ToLower(s[0])] + SnakeFrom(s[1..], false)
  {
    var rest := SnakeFrom(s[1..], !IsUpper(s[0]));
    assert done + ("-" + [ToLower(s[0])] + rest) == done + "-" + [ToLower(s[0])] + rest;
    assert done + ([s[0]] + rest) == done + [s[0]] + rest;
    assert "" + [ToLower(s[0])] + rest == [ToLower(s[0])] + rest;
    assert done + ([ToLower(s[0])] + rest) == done + [ToLower(s[0])] + rest;
  }

  /** `snakeCase`. */
  method SnakeCase(name: string) returns (result: string)
    ensures result == Snake(name)
  {
    result := "";
    var needSeparator := false;
    var i := 0;
    while i < |name|
      invariant 0 <= i <= |name|
      invariant result + SnakeFrom(name[i..], needSeparator) == Snake(name)
    {
      var c := name[i];
      SnakeCons(result, name[i..], needSeparator);
      assert name[i..][1..] == name[i + 1..];
      if IsUpper(c) {
        if needSeparator {
          result := result + "-";
          needSeparator := false;
        }
        result := result + [ToLower(c)];
      } else {
        result := result + [c];
        needSeparator := true;
      }
      i := i + 1;
    }
    assert name[i..] == "";
  }

  /** What character `i` of a name becomes: a capital becomes small, behind a dash unless it is the first character or
      follows another capital; every other character stays. */
  function Letter(s: string, i: nat): string
    requires i < |s|
  {
    if !IsUpper(s[i]) then [s[i]]
    else (if i > 0 && !IsUpper(s[i - 1]) then "-" else "") + [ToLower(s[i])]
  }

  function Letters(s: string, n: nat): string
    requires n <= |s|
  {
    if n == 0 then "" else Letters(s, n - 1) + Letter(s, n - 1)
  }

  /** `snakeCase` works letter by letter, and each letter depends on the one before it alone. */
  lemma SnakeIsLetters(s: string)
    ensures Snake(s) == Letters(s, |s|)
  {
    LettersThen(s, 0);
  }

  lemma SnakeLetter(s: string, n: nat)
    requires n < |s|
    ensures SnakeFrom(s[n..], n > 0 && !IsUpper(s[n - 1])) == Letter(s, n) + SnakeFrom(s[n + 1..], !IsUpper(s[n]))
  {
    assert s[n..][0] == s[n] && s[n..][1..] == s[n + 1..];
  }

  lemma {:induction false} LettersThen(s: string, n: nat)
    requires n <= |s|
    ensures Letters(s, n) + SnakeFrom(s[n..], n > 0 && !IsUpper(s[n - 1])) == Letters(s, |s|)
    decreases |s| - n
  {
    if n < |s| {
      LettersThen(s, n + 1);
      SnakeLetter(s, n);
      Assoc(Letters(s, n), Letter(s, n), SnakeFrom(s[n + 1..], !IsUpper(s[n])));
    } else {
      assert s[n..] == "";
    }
  }

  // ---------- pascalCase ----------

  function NonEmpty(ps: seq<string>): seq<string> {
    if ps == [] then [] else (if |ps[0]| > 0 then [ps[0]] else []) + NonEmpty(ps[1..])
  }

  function Capitalize(p: string): string {
    if p == "" then "" else [ToUpper(p[0])] + p[1..]
  }

  function CapitalizeAll(ps: seq<string>): seq<string> {
    if ps == [] then [] else [Capitalize(ps[0])] + CapitalizeAll(ps[1..])
  }

  /** `pascalCase`: split, filter, map, join. */
  function Pascal(t: string): string {
    Join(CapitalizeAll(NonEmpty(Split(t, IsSeparator))), "")
  }

  /** `camelCase`. */
  function Camel(t: string): string {
    var p := Pascal(t);
    if p == "" then "" else [ToLower(p[0])] + p[1..]
  }

  // ---------- pascalCase as a scan ----------

  /** One pass over the characters: `cap` says that the next one starts a piece. */
  function Scan(t: string, cap: bool): string {
    if t == "" then ""
    else if IsSeparator(t[0]) then Scan(t[1..], true)
    else [if cap then ToUpper(t[0]) else t[0]] + Scan(t[1..], false)
  }

  function Glue(ps: seq<string>): string {
    Join(CapitalizeAll(NonEmpty(ps)), "")
  }

  lemma GlueCons(p: string, ps: seq<string>)
    ensures Glue([p] + ps) == Capitalize(p) + Glue(ps)
  {
    var rest := CapitalizeAll(NonEmpty(ps));
    assert ([p] + ps)[1..] == ps;
    if p == "" {
      assert NonEmpty([p] + ps) == NonEmpty(ps);
    } else {
      assert NonEmpty([p] + ps) == [p] + NonEmpty(ps);
      assert ([p] + NonEmpty(ps))[1..] == NonEmpty(ps);
      assert CapitalizeAll([p] + NonEmpty(ps)) == [Capitalize(p)] + rest;
      assert ([Capitalize(p)] + rest)[1..] == rest;
    }
  }

  lemma CapitalizeCons(c: char, x: string)
    ensures Capitalize([c] + x) == [ToUpper(c)] + x
  {
    assert ([c] + x)[1..] == x;
  }

  lemma Assoc(a: string, b: string, c: string)
    ensures a + b + c == a + (b + c)
  {}

  /** The pieces, glued: from the start of a piece, and from inside the first one. */
  lemma {:induction false} ScanPieces(t: string)
    ensures var ps := Split(t, IsSeparator); Scan(t, true) == Glue(ps) && Scan(t, false) == ps[0] + Glue(ps[1..])
  {
    if t == "" {
      GlueCons("", []);
      assert [""] + [] == [""] && [""][1..] == [];
    } else {
      ScanPieces(t[1..]);
      var rest := Split(t[1..], IsSeparator);
      if IsSeparator(t[0]) {
        GlueCons("", rest);
        assert ([""] + rest)[1..] == rest;
      } else {
        var p := [t[0]] + rest[0];
        assert ([p] + rest[1..])[1..] == rest[1..];
        GlueCons(p, rest[1..]);
        CapitalizeCons(t[0], rest[0]);
        Assoc([ToUpper(t[0])], rest[0], Glue(rest[1..]));
        Assoc([t[0]], rest[0], Glue(rest[1..]));
      }
    }
  }

  /** The pipeline and the one-pass scan compute the same string. */
  lemma ScanIsPascal(t: string)
    ensures Scan(t, true) == Pascal(t)
  {
    ScanPieces(t);
  }

  // ---------- pascalCase after snakeCase ----------

  ghost predicate NoAdjacentUpper(s: string) {
    forall i :: 0 <= i < |s| - 1 ==> !(IsUpper(s[i]) && IsUpper(s[i + 1]))
  }

  lemma {:induction false} ScanFree(t: string, cap: bool)
    ensures Free(Scan(t, cap), IsSeparator)
  {
    if t != "" { ScanFree(t[1..], IsSeparator(t[0])); }
  }

  /** Past the first character the round trip copies the string, except that an upper-case letter right
      after an upper-case letter comes back in lower case. */
  lemma {:induction false} RoundTripTail(s: string, need: bool)
    requires Free(s, IsSeparator)
    ensures |Scan(SnakeFrom(s, need), false)| == |s|
    ensures Scan(SnakeFrom(s, need), false) == s <==> NoAdjacentUpper(s) && (need || s == "" || !IsUpper(s[0]))
  {
    if s != "" {
      var rest := s[1..];
      var up := IsUpper(s[0]);
      assert Free(rest, IsSeparator);
      RoundTripTail(rest, !up);
      var back := Scan(SnakeFrom(rest, !up), false);
      ScanSnakeCons(s, need, false);
      assert s == [s[0]] + rest;
      NoAdjacentCons(s);
    }
  }

  /** One character through both conversions. */
  lemma ScanSnakeCons(s: string, need: bool, cap: bool)
    requires s != "" && !IsSeparator(s[0])
    ensures Scan(SnakeFrom(s, need), cap) ==
            [if IsUpper(s[0]) then (if need || cap then s[0] else ToLower(s[0]))
             else if cap then ToUpper(s[0]) else s[0]]
            + Scan(SnakeFrom(s[1..], !IsUpper(s[0])), false)
  {
    var rest := SnakeFrom(s[1..], !IsUpper(s[0]));
    if IsUpper(s[0]) {
      var tail := [ToLower(s[0])] + rest;
      assert tail[1..] == rest && tail[0] == ToLower(s[0]);
      if need {
        assert SnakeFrom(s, need) == "-" + tail;
        assert ("-" + tail)[1..] == tail;
      } else {
        assert SnakeFrom(s, need) == tail;
      }
    } else {
      assert ([s[0]] + rest)[1..] == rest;
    }
  }

  lemma NoAdjacentCons(s: string)
    requires s != ""
    ensures NoAdjacentUpper(s) <==> NoAdjacentUpper(s[1..]) && !(|s| > 1 && IsUpper(s[0]) && IsUpper(s[1]))
  {
    var t := s[1..];
    assert forall i :: 0 <= i < |t| ==> t[i] == s[i + 1];
    if NoAdjacentUpper(t) && !(|s| > 1 && IsUpper(s[0]) && IsUpper(s[1])) {
      forall i | 0 <= i < |s| - 1 ensures !(IsUpper(s[i]) && IsUpper(s[i + 1])) {
        if i > 0 { assert s[i] == t[i - 1] && s[i + 1] == t[i]; }
      }
    }
    if NoAdjacentUpper(s) {
      forall i | 0 <= i < |t| - 1 ensures !(IsUpper(t[i]) && IsUpper(t[i + 1])) {
        assert t[i] == s[i + 1] && t[i + 1] == s[i + 2];
      }
    }
  }

  /** The strings `snakeCase` can be undone on. */
  ghost predicate PascalName(s: string) {
    Free(s, IsSeparator) && (s == "" || !IsLower(s[0])) && NoAdjacentUpper(s)
  }

  /** `pascalCase` undoes `snakeCase` exactly on the strings without separator, not starting in lower case
      and without two upper-case letters in a row. */
  lemma PascalUndoesSnake(s: string)
    ensures Pascal(Snake(s)) == s <==> PascalName(s)
  {
    ScanIsPascal(Snake(s));
    ScanFree(Snake(s), true);
    if Free(s, IsSeparator) && s != "" {
      var rest := s[1..];
      assert Free(rest, IsSeparator);
      RoundTripTail(rest, !IsUpper(s[0]));
      ScanSnakeCons(s, false, true);
      assert s == [s[0]] + rest;
      NoAdjacentCons(s);
    }
  }

  /** Hence `snakeCase` is injective on those strings. */
  lemma SnakeInjective(a: string, b: string)
    requires PascalName(a) && PascalName(b) && Snake(a) == Snake(b)
    ensures a == b
  {
    PascalUndoesSnake(a);
    PascalUndoesSnake(b);
  }

  // ---------- snakeCase after pascalCase ----------

  predicate IsPlain(c: char) { !IsUpper(c) && c != '_' }

  ghost predicate Plain(s: string) {
    forall i :: 0 <= i < |s| ==> IsPlain(s[i])
  }

  /** After the first `p` of a name, would `snakeCase` put a separator before an upper-case letter? */
  predicate Separates(p: string) {
    |p| > 1 || (|p| == 1 && !IsLower(p[0]))
  }

  /** A piece that follows a separator: it starts with a letter. */
  predicate Follows(p: string) {
    |p| > 0 && IsLower(p[0])
  }

  /** Every piece of `ps` can follow a separator, and all but the last call for one. */
  ghost predicate Chain(ps: seq<string>) {
    && (forall i :: 0 <= i < |ps| ==> Follows(ps[i]))
    && (forall i :: 0 <= i < |ps| - 1 ==> Separates(ps[i]))
  }

  /** The strings `pascalCase` can be undone on: empty, or without upper case and `_`, with no empty piece, every
      piece after the first starting with a letter, and no piece before another a single letter. */
  ghost predicate SnakeName(t: string) {
    t == "" ||
    (&& Plain(t)
     && var ps := Split(t, IsSeparator);
     && ps[0] != ""
     && (forall i :: 1 <= i < |ps| ==> |ps[i]| > 0 && IsLower(ps[i][0]))
     && (forall i :: 0 <= i < |ps| - 1 ==> !(|ps[i]| == 1 && IsLower(ps[i][0]))))
  }

  /** The pieces after the first, each behind its separator. */
  function Dashed(ps: seq<string>): string {
    if ps == [] then "" else "-" + ps[0] + Dashed(ps[1..])
  }

  lemma {:induction false} JoinDashed(ps: seq<string>)
    requires ps != []
    ensures Join(ps, "-") == ps[0] + Dashed(ps[1..])
  {
    if |ps| > 1 {
      JoinDashed(ps[1..]);
      assert ps[1..][1..] == ps[2..];
      assert ps[0] + "-" + (ps[1] + Dashed(ps[2..])) == ps[0] + ("-" + ps[1] + Dashed(ps[2..]));
    }
  }

  lemma {:induction false} SnakePlain(q: string, x: string, need: bool)
    requires Plain(q)
    ensures SnakeFrom(q + x, need) == q + SnakeFrom(x, need || q != "")
  {
    if q == "" {
      assert q + x == x;
    } else {
      assert (q + x)[1..] == q[1..] + x && IsPlain(q[0]);
      SnakePlain(q[1..], x, true);
    }
  }

  lemma SnakeHead(c: char, r: string, need: bool)
    requires IsPlain(c)
    ensures SnakeFrom([ToUpper(c)] + r, need) == (if IsLower(c) && need then "-"
            else "") + [c] + SnakeFrom(r, !IsLower(c))
  {
    var s := [ToUpper(c)] + r;
    assert s[0] == ToUpper(c) && s[1..] == r;
    assert "" + [c] == [c];
  }

  /** A piece through both conversions: it comes back, behind a separator if it starts with a letter and one is due. */
  lemma SnakePiece(p: string, x: string, need: bool)
    requires Plain(p) && p != ""
    ensures SnakeFrom(Capitalize(p) + x, need) == (if Follows(p) && need then "-"
            else "") + p + SnakeFrom(x, Separates(p))
  {
    var c, q := p[0], p[1..];
    assert IsPlain(c) && Plain(q);
    CapitalizeHead(p, x);
    SnakeHead(c, q + x, need);
    SnakePlain(q, x, !IsLower(c));
    Regroup(if IsLower(c) && need then "-" else "", [c], q, SnakeFrom(x, Separates(p)));
  }

  lemma CapitalizeHead(p: string, x: string)
    requires p != ""
    ensures Capitalize(p) + x == [ToUpper(p[0])] + (p[1..] + x) && p == [p[0]] + p[1..]
  {}

  lemma Regroup(a: string, b: string, c: string, d: string)
    ensures a + b + (c + d) == a + (b + c) + d
  {}

  ghost predicate AllPlain(ps: seq<string>) {
    forall i :: 0 <= i < |ps| ==> Plain(ps[i])
  }

  lemma {:induction false} NeverLonger(ps: seq<string>, need: bool)
    requires AllPlain(ps)
    ensures |SnakeFrom(Glue(ps), need)| <= |Dashed(ps)|
  {
    if ps != [] {
      var p, qs := ps[0], ps[1..];
      assert ps == [p] + qs && AllPlain(qs) && Plain(p);
      GlueCons(p, qs);
      if p == "" {
        assert Capitalize(p) + Glue(qs) == Glue(qs);
        NeverLonger(qs, need);
      } else {
        SnakePiece(p, Glue(qs), need);
        NeverLonger(qs, Separates(p));
      }
    }
  }

  lemma ChainCons(p: string, qs: seq<string>)
    ensures Chain([p] + qs) <==> Follows(p) && Chain(qs) && (qs != [] ==> Separates(p))
  {
    var ps := [p] + qs;
    assert forall i :: 0 <= i < |qs| ==> qs[i] == ps[i + 1];
    if Chain(ps) {
      assert Follows(ps[0]);
      if qs != [] { assert Separates(ps[0]); }
      forall i | 0 <= i < |qs| ensures Follows(qs[i]) { assert Follows(ps[i + 1]); }
      forall i | 0 <= i < |qs| - 1 ensures Separates(qs[i]) { assert Separates(ps[i + 1]); }
    }
  }

  /** The pieces after the first come back behind their separators exactly if they form a chain. */
  lemma {:induction false} TailRoundTrip(ps: seq<string>, need: bool)
    requires AllPlain(ps)
    ensures SnakeFrom(Glue(ps), need) == Dashed(ps) <==> ps == [] || (need && Chain(ps))
  {
    if ps != [] {
      var p, qs := ps[0], ps[1..];
      assert ps == [p] + qs && AllPlain(qs) && Plain(p);
      GlueCons(p, qs);
      ChainCons(p, qs);
      if p == "" {
        assert Capitalize(p) + Glue(qs) == Glue(qs);
        NeverLonger(qs, need);
      } else {
        SnakePiece(p, Glue(qs), need);
        NeverLonger(qs, Separates(p));
        TailRoundTrip(qs, Separates(p));
        if Follows(p) && need {
          SameHead("-" + p, SnakeFrom(Glue(qs), Separates(p)), Dashed(qs));
        }
      }
    }
  }

  /** What `snakeCase` returns has no upper case, and no `_` if its argument has no separator. */
  lemma {:induction false} SnakeIsPlain(s: string, need: bool)
    requires Free(s, IsSeparator)
    ensures Plain(SnakeFrom(s, need))
  {
    if s != "" { SnakeIsPlain(s[1..], !IsUpper(s[0])); }
  }

  lemma SnakeOfPascalIsPlain(t: string)
    ensures Plain(Snake(Pascal(t)))
  {
    ScanIsPascal(t);
    ScanFree(t, true);
    SnakeIsPlain(Pascal(t), false);
  }

  lemma PlainPieces(t: string)
    requires Plain(t)
    ensures AllPlain(Split(t, IsSeparator)) && Join(Split(t, IsSeparator), "-") == t
  {
    var ps := Split(t, IsSeparator);
    assert forall i :: 0 <= i < |t| && IsSeparator(t[i]) ==> IsPlain(t[i]) && t[i] == '-';
    JoinSplit(t, IsSeparator, '-');
    forall i | 0 <= i < |ps| ensures Plain(ps[i]) {
      forall k | 0 <= k < |ps[i]| ensures IsPlain(ps[i][k]) {
        PiecesWithin(t, IsSeparator, ps[i], ps[i][k]);
        var j :| 0 <= j < |t| && t[j] == ps[i][k];
      }
    }
  }

  lemma SnakeNameIsChain(t: string)
    requires Plain(t) && t != ""
    ensures var ps := Split(t, IsSeparator);
            SnakeName(t) <==> ps[0] != "" && (|ps| == 1 || (Separates(ps[0]) && Chain(ps[1..])))
  {
    var ps := Split(t, IsSeparator);
    var qs := ps[1..];
    assert forall i :: 0 <= i < |qs| ==> qs[i] == ps[i + 1];
    if ps[0] != "" && |ps| > 1 && Separates(ps[0]) && Chain(qs) {
      forall i | 1 <= i < |ps| ensures |ps[i]| > 0 && IsLower(ps[i][0]) { assert Follows(qs[i - 1]); }
      forall i | 0 <= i < |ps| - 1 ensures !(|ps[i]| == 1 && IsLower(ps[i][0])) {
        if i > 0 { assert Separates(qs[i - 1]); }
      }
    }
    if SnakeName(t) && |ps| > 1 {
      forall i | 0 <= i < |qs| ensures Follows(qs[i]) { assert qs[i] == ps[i + 1]; }
      forall i | 0 <= i < |qs| - 1 ensures Separates(qs[i]) { assert Follows(qs[i]) && qs[i] == ps[i + 1]; }
    }
  }

  lemma FirstPiece(p: string, x: string)
    requires Plain(p)
    ensures SnakeFrom(Capitalize(p) + x, false) == p + SnakeFrom(x, Separates(p))
  {
    var y := SnakeFrom(x, Separates(p));
    if p == "" {
      assert Capitalize(p) + x == x && p + y == y;
    } else {
      SnakePiece(p, x, false);
      assert "" + p == p;
    }
  }

  lemma PiecesRoundTrip(p: string, qs: seq<string>)
    requires Plain(p) && AllPlain(qs)
    ensures SnakeFrom(Glue([p] + qs), false) == p + Dashed(qs) <==> qs == [] || (Separates(p) && Chain(qs))
  {
    var x, need := Glue(qs), Separates(p);
    GlueCons(p, qs);
    FirstPiece(p, x);
    SameHead(p, SnakeFrom(x, need), Dashed(qs));
    TailRoundTrip(qs, need);
  }

  lemma PlainRoundTrip(t: string)
    requires Plain(t)
    ensures var ps := Split(t, IsSeparator);
            Snake(Pascal(t)) == t <==> |ps| == 1 || (Separates(ps[0]) && Chain(ps[1..]))
  {
    PlainPieces(t);
    var ps := Split(t, IsSeparator);
    assert ps == [ps[0]] + ps[1..] && Plain(ps[0]) && AllPlain(ps[1..]);
    JoinDashed(ps);
    PiecesRoundTrip(ps[0], ps[1..]);
  }

  /** `snakeCase` undoes `pascalCase` exactly on the strings described by `SnakeName`. */
  lemma SnakeUndoesPascal(t: string)
    ensures Snake(Pascal(t)) == t <==> SnakeName(t)
  {
    SnakeOfPascalIsPlain(t);
    if Plain(t) {
      PlainRoundTrip(t);
      if t != "" {
        SnakeNameIsChain(t);
        JoinSplit(t, IsSeparator, '-');
      }
    }
  }

  // ---------- camelCase ----------

  /** `camelCase` loses nothing `pascalCase` keeps: each can be computed from the other's result. */
  lemma CamelPascal(t: string)
    ensures Pascal(Camel(t)) == Pascal(t)
    ensures Camel(Pascal(t)) == Camel(t)
    ensures Pascal(Pascal(t)) == Pascal(t)
  {
    ScanIsPascal(t);
    ScanFree(t, true);
    ScanStart(t);
    var p := Pascal(t);
    PascalOfFree(p);
    var c := Camel(t);
    if p != "" {
      assert Free(c, IsSeparator) by {
        forall i | 0 <= i < |c| ensures !IsSeparator(c[i]) { assert !IsSeparator(p[i]); }
      }
      PascalOfFree(c);
      assert c[1..] == p[1..];
      assert p == [p[0]] + p[1..];
    }
  }

  /** `camelCase` never starts in upper case, and from the second character on it is `pascalCase`. */
  lemma CamelShape(t: string)
    ensures var c, p := Camel(t), Pascal(t);
            && |c| == |p|
            && (c != "" ==>
                  && !IsUpper(c[0]) && c[1..] == p[1..]
                  && c[0] as int == p[0] as int + if IsUpper(p[0]) then 32 else 0)
  {
    if Pascal(t) != "" { Alphabet(Pascal(t)[0]); }
  }

  lemma {:induction false} ScanStart(t: string)
    ensures Scan(t, true) != "" ==> !IsLower(Scan(t, true)[0])
  {
    if t != "" && IsSeparator(t[0]) { ScanStart(t[1..]); }
  }

  lemma PascalOfFree(s: string)
    requires Free(s, IsSeparator)
    ensures Pascal(s) == Capitalize(s)
  {
    PiecesFree(s, IsSeparator);
    GlueCons(s, []);
    assert [s] + [] == [s];
  }
}
