/**
 The log messages sent to the web clients: `wssSendLogMessage` of packages/core/src/frontend.ts and of
 packages/core/src/backendWsServer.ts, which are the same pipeline.
 */
module LogText {
  import opened Text

  const ESC: char := '\U{1B}'

  predicate IsEsc(c: char) { c == ESC }

  predicate IsParameter(c: char) { '0' <= c <= '9' || c == ';' }

  /** The character class of the expression, which also contains the bar. */
  predicate IsFinal(c: char) { c == 'm' || c == '|' || c == 's' || c == 'u' || c == 'K' }

  predicate IsControl(c: char) { c <= '\U{1F}' || c == '\U{7F}' }

  predicate IsTabOrNewline(c: char) { c == '\t' || c == '\n' }

  predicate IsSpace(c: char) { c == ' ' }

  // ---------- removing ANSI sequences ----------

  /** Length of the longest run of parameter characters at the start. */
  function ParameterRun(s: string): (n: nat)
    ensures n <= |s|
  {
    if s != "" && IsParameter(s[0]) then 1 + ParameterRun(s[1..]) else 0
  }

  /** Length of the ANSI sequence at the start of `s`, or 0. */
  function AnsiLength(s: string): (n: nat)
    ensures n <= |s|
  {
    if |s| >= 2 && s[0] == ESC && s[1] == '[' then
      var k := 2 + ParameterRun(s[2..]);
      if k < |s| && IsFinal(s[k]) then k + 1 else 0
    else 0
  }

  /** The global replacement of ANSI sequences by nothing, left to right. */
  function StripAnsi(s: string): string
    decreases |s|
  {
    if s == "" then ""
    else if AnsiLength(s) > 0 then StripAnsi(s[AnsiLength(s)..])
    else [s[0]] + StripAnsi(s[1..])
  }

  datatype Item = Plain(text: string) | Ansi(parameters: string, final: char)

  ghost predicate ValidItem(i: Item) {
    match i
    case Plain(t) => Free(t, IsEsc)
    case Ansi(ps, f) => (forall k :: 0 <= k < |ps| ==> IsParameter(ps[k])) && IsFinal(f)
  }

  function RenderItem(i: Item): string {
    match i
    case Plain(t) => t
    case Ansi(ps, f) => [ESC, '['] + ps + [f]
  }

  /** Text with its ANSI sequences. */
  function Render(items: seq<Item>): string {
    if items == [] then "" else RenderItem(items[0]) + Render(items[1..])
  }

  /** The text alone. */
  function TextOf(items: seq<Item>): string {
    if items == [] then "" else (if items[0].Plain? then items[0].text else "") + TextOf(items[1..])
  }

  lemma {:induction false} ParameterRunIs(ps: string, f: char, x: string)
    requires forall k :: 0 <= k < |ps| ==> IsParameter(ps[k])
    requires IsFinal(f)
    ensures ParameterRun(ps + [f] + x) == |ps|
  {
    var s := ps + [f] + x;
    if ps != "" {
      assert s[1..] == ps[1..] + [f] + x;
      ParameterRunIs(ps[1..], f, x);
    }
  }

  lemma StripAnsiItem(ps: string, f: char, x: string)
    requires ValidItem(Ansi(ps, f))
    ensures StripAnsi(RenderItem(Ansi(ps, f)) + x) == StripAnsi(x)
  {
    var s := RenderItem(Ansi(ps, f)) + x;
    assert s[2..] == ps + [f] + x;
    ParameterRunIs(ps, f, x);
    var k := 2 + |ps|;
    assert s[k] == f && s[k + 1..] == x;
  }

  lemma {:induction false} StripPlainItem(t: string, x: string)
    requires Free(t, IsEsc)
    ensures StripAnsi(t + x) == t + StripAnsi(x)
  {
    if t == "" {
      assert t + x == x;
    } else {
      assert (t + x)[1..] == t[1..] + x && (t + x)[0] == t[0] && !IsEsc(t[0]);
      StripPlainItem(t[1..], x);
    }
  }

  /** Stripping undoes rendering. */
  lemma {:induction false} StripUndoesRender(items: seq<Item>)
    requires forall i :: 0 <= i < |items| ==> ValidItem(items[i])
    ensures StripAnsi(Render(items)) == TextOf(items)
  {
    if items != [] {
      StripUndoesRender(items[1..]);
      assert ValidItem(items[0]);
      match items[0]
      case Plain(t) => StripPlainItem(t, Render(items[1..]));
      case Ansi(ps, f) => StripAnsiItem(ps, f, Render(items[1..]));
    }
  }

  /** Reading a string back as text and sequences. */
  function Parse(s: string): seq<Item>
    decreases |s|
  {
    if s == "" then []
    else if AnsiLength(s) > 0 then
      var n := AnsiLength(s);
      [Ansi(s[2..n - 1], s[n - 1])] + Parse(s[n..])
    else [Plain([s[0]])] + Parse(s[1..])
  }

  lemma {:induction false} ParameterRunValid(s: string)
    ensures forall k :: 0 <= k < ParameterRun(s) ==> IsParameter(s[k])
  {
    if s != "" && IsParameter(s[0]) {
      ParameterRunValid(s[1..]);
      forall k | 0 <= k < ParameterRun(s) ensures IsParameter(s[k]) {
        if k > 0 { assert s[k] == s[1..][k - 1]; }
      }
    }
  }

  lemma AnsiHead(s: string)
    requires AnsiLength(s) > 0
    ensures var n := AnsiLength(s);
            n >= 3 && ValidItem(Ansi(s[2..n - 1], s[n - 1])) && RenderItem(Ansi(s[2..n - 1], s[n - 1])) + s[n..] == s
  {
    var n := AnsiLength(s);
    var tail := s[2..];
    var k := ParameterRun(tail);
    assert n == k + 3;
    ParameterRunValid(tail);
    var ps := s[2..n - 1];
    forall i | 0 <= i < |ps| ensures IsParameter(ps[i]) { assert ps[i] == tail[i]; }
    assert s[..2] == [ESC, '['];
    assert s == s[..2] + ps + [s[n - 1]] + s[n..];
  }

  lemma {:induction false} ParseRenders(s: string)
    ensures Render(Parse(s)) == s
    decreases |s|
  {
    if s != "" {
      var n := AnsiLength(s);
      if n > 0 {
        AnsiHead(s);
        ParseRenders(s[n..]);
        assert Parse(s)[1..] == Parse(s[n..]);
      } else {
        ParseRenders(s[1..]);
        assert Parse(s)[1..] == Parse(s[1..]);
      }
    }
  }

  lemma {:induction false} ParseValid(s: string)
    requires Free(StripAnsi(s), IsEsc)
    ensures forall i :: 0 <= i < |Parse(s)| ==> ValidItem(Parse(s)[i])
    decreases |s|
  {
    if s != "" {
      var n := AnsiLength(s);
      if n > 0 {
        AnsiHead(s);
        ParseValid(s[n..]);
        assert Parse(s)[1..] == Parse(s[n..]);
      } else {
        var r, t := StripAnsi(s), StripAnsi(s[1..]);
        assert !IsEsc(r[0]);
        forall i | 0 <= i < |t| ensures !IsEsc(t[i]) { assert r[i + 1] == t[i]; }
        ParseValid(s[1..]);
        assert Parse(s)[1..] == Parse(s[1..]);
      }
    }
  }

  /** Stripping leaves no escape character exactly if the message is text without escape characters
      interleaved with well-formed sequences. */
  lemma StripsCleanExactly(s: string)
    ensures Free(StripAnsi(s), IsEsc) <==>
            exists items: seq<Item> :: Render(items) == s && forall i :: 0 <= i < |items| ==> ValidItem(items[i])
  {
    ParseRenders(s);
    if Free(StripAnsi(s), IsEsc) { ParseValid(s); }
    forall items: seq<Item> | Render(items) == s && (forall i :: 0 <= i < |items| ==> ValidItem(items[i]))
      ensures Free(StripAnsi(s), IsEsc)
    {
      StripUndoesRender(items);
      TextFree(items);
    }
  }

  lemma {:induction false} TextFree(items: seq<Item>)
    requires forall i :: 0 <= i < |items| ==> ValidItem(items[i])
    ensures Free(TextOf(items), IsEsc)
  {
    if items != [] {
      assert ValidItem(items[0]);
      TextFree(items[1..]);
    }
  }

  /** A sequence that only appears once another one is gone survives: stripping is not idempotent. */
  lemma StripNotIdempotent()
    ensures var s := [ESC, ESC, '[', 'm', '[', 'm'];
            StripAnsi(s) == [ESC, '[', 'm'] && StripAnsi(StripAnsi(s)) == ""
  {
    var s := [ESC, ESC, '[', 'm', '[', 'm'];
    var a := s[1..];
    assert AnsiLength(s) == 0;
    assert ParameterRun(a[2..]) == 0 && AnsiLength(a) == 3;
    var b := a[3..];
    assert b == ['[', 'm'];
    StripPlainItem(b, "");
    assert b + "" == b;
    assert StripAnsi(s) == [ESC] + b;
    StripAnsiItem("", 'm', "");
    assert RenderItem(Ansi("", 'm')) + "" == [ESC, '[', 'm'];
  }

  // ---------- the other replacements ----------

  /** Remove every character of a class. */
  function Without(s: string, drop: char -> bool): string {
    if s == "" then "" else (if drop(s[0]) then "" else [s[0]]) + Without(s[1..], drop)
  }

  /** It works character by character: it distributes over concatenation, and (`WithoutOne`) keeps a single character if
      and only if it is not in the class. */
  lemma {:induction false} WithoutConcat(a: string, b: string, drop: char -> bool)
    ensures Without(a + b, drop) == Without(a, drop) + Without(b, drop)
  {
    if a == "" {
      assert a + b == b;
    } else {
      WithoutConcat(a[1..], b, drop);
      assert (a + b)[1..] == a[1..] + b && (a + b)[0] == a[0];
    }
  }

  lemma WithoutOne(c: char, drop: char -> bool)
    ensures Without([c], drop) == if drop(c) then "" else [c]
  {}

  /** Every character outside the class occurs as often as before, and none inside it. */
  lemma {:induction false} WithoutCounts(s: string, drop: char -> bool, c: char)
    ensures multiset(Without(s, drop))[c] == if drop(c) then 0 else multiset(s)[c]
  {
    if s != "" {
      WithoutCounts(s[1..], drop, c);
      assert s == [s[0]] + s[1..];
    }
  }

  /** Remove leading asterisks. */
  function DropStars(s: string): string {
    if s != "" && s[0] == '*' then DropStars(s[1..]) else s
  }

  /** Replace every backslash-quote by a quote. */
  function Unquote(s: string): string
    decreases |s|
  {
    if s == "" then ""
    else if |s| >= 2 && s[0] == '\\' && s[1] == '"' then "\"" + Unquote(s[2..])
    else [s[0]] + Unquote(s[1..])
  }

  // ---------- truncating long words ----------

  const MAX_WORD := 100
  const KEEP_START := 20
  const KEEP_END := 20

  function Truncate(w: string): string {
    if |w| > MAX_WORD then w[..KEEP_START] + " ... " + w[|w| - KEEP_END..] else w
  }

  function TruncateAll(ws: seq<string>): seq<string> {
    if ws == [] then [] else [Truncate(ws[0])] + TruncateAll(ws[1..])
  }

  /** Split into words, truncate, join. */
  function TruncateText(s: string): string {
    Join(TruncateAll(Split(s, IsSpace)), " ")
  }

  /** The words a truncated word consists of. */
  function Pieces(w: string): seq<string> {
    if |w| > 100 then [w[..20], "...", w[|w| - 20..]] else [w]
  }

  function AllPieces(ws: seq<string>): seq<string> {
    if ws == [] then [] else Pieces(ws[0]) + AllPieces(ws[1..])
  }

  lemma {:induction false} JoinAppend(xs: seq<string>, ys: seq<string>)
    requires xs != [] && ys != []
    ensures Join(xs + ys, " ") == Join(xs, " ") + " " + Join(ys, " ")
  {
    if |xs| == 1 {
      assert (xs + ys)[1..] == ys;
    } else {
      JoinAppend(xs[1..], ys);
      assert (xs + ys)[1..] == xs[1..] + ys;
      assert xs[0] + " " + (Join(xs[1..], " ") + " " + Join(ys, " "))
          == (xs[0] + " " + Join(xs[1..], " ")) + " " + Join(ys, " ");
    }
  }

  lemma JoinPieces(w: string)
    ensures Join(Pieces(w), " ") == Truncate(w)
  {
    if |w| > MAX_WORD {
      var a, b := w[..KEEP_START], w[|w| - KEEP_END..];
      var two := ["...", b];
      assert two[1..] == [b];
      assert Join([b], " ") == b;
      assert Join(two, " ") == "..." + " " + b;
      var three := [a, "...", b];
      assert three[1..] == two;
      assert Join(three, " ") == a + " " + Join(two, " ");
      assert a + " " + ("..." + " " + b) == a + " ... " + b;
    }
  }

  lemma {:induction false} TruncateIsPieces(ws: seq<string>)
    ensures Join(TruncateAll(ws), " ") == Join(AllPieces(ws), " ")
    ensures ws != [] ==> AllPieces(ws) != []
  {
    if ws != [] {
      TruncateIsPieces(ws[1..]);
      JoinPieces(ws[0]);
      if |ws| == 1 {
        assert AllPieces(ws) == Pieces(ws[0]);
      } else {
        JoinAppend(Pieces(ws[0]), AllPieces(ws[1..]));
        assert TruncateAll(ws)[1..] == TruncateAll(ws[1..]);
      }
    }
  }

  lemma {:induction false} PiecesShort(ws: seq<string>)
    requires forall w :: w in ws ==> Free(w, IsSpace)
    ensures forall p :: p in AllPieces(ws) ==> Free(p, IsSpace) && |p| <= 100
  {
    if ws != [] {
      assert ws[0] in ws;
      PiecesShort(ws[1..]);
    }
  }

  /** The words of a truncated text are the pieces of its words; none is longer than 100. */
  lemma TruncatedWords(s: string)
    ensures Split(TruncateText(s), IsSpace) == AllPieces(Split(s, IsSpace))
    ensures forall w :: w in Split(TruncateText(s), IsSpace) ==> |w| <= 100
  {
    var ws := Split(s, IsSpace);
    PiecesFree(s, IsSpace);
    TruncateIsPieces(ws);
    PiecesShort(ws);
    SplitJoin(AllPieces(ws), IsSpace, ' ');
  }

  lemma {:induction false} ShortUntouched(ws: seq<string>)
    requires forall w :: w in ws ==> |w| <= MAX_WORD
    ensures TruncateAll(ws) == ws
  {
    if ws != [] {
      assert ws[0] in ws;
      ShortUntouched(ws[1..]);
    }
  }

  /** Truncation leaves a text alone exactly if all its words are short; so it is idempotent. */
  lemma TruncateIdempotent(s: string)
    ensures TruncateText(s) == s <==> forall w :: w in Split(s, IsSpace) ==> |w| <= 100
    ensures TruncateText(TruncateText(s)) == TruncateText(s)
  {
    TruncatedWords(s);
    var t := TruncateText(s);
    ShortUntouched(Split(t, IsSpace));
    JoinSplit(t, IsSpace, ' ');
    if forall w :: w in Split(s, IsSpace) ==> |w| <= MAX_WORD {
      ShortUntouched(Split(s, IsSpace));
      JoinSplit(s, IsSpace, ' ');
    }
  }

  lemma {:induction false} TruncateShorter(ws: seq<string>)
    ensures |Join(TruncateAll(ws), " ")| <= |Join(ws, " ")|
  {
    if |ws| > 1 {
      TruncateShorter(ws[1..]);
      assert TruncateAll(ws)[1..] == TruncateAll(ws[1..]);
    }
  }

  // ---------- the whole pipeline ----------

  function Cleaned(message: string): string {
    Unquote(Without(Without(DropStars(StripAnsi(message)), IsTabOrNewline), IsControl))
  }

  function Prepared(level: string, message: string): string {
    if level == "spawn" then Cleaned(message) else TruncateText(Cleaned(message))
  }

  // Each step shortens what it changes.

  ghost predicate Shrinks(before: string, after: string) {
    |after| <= |before| && (|after| == |before| ==> after == before)
  }

  lemma {:induction false} StripShrinks(s: string)
    ensures Shrinks(s, StripAnsi(s))
    decreases |s|
  {
    if s != "" {
      if AnsiLength(s) > 0 { StripShrinks(s[AnsiLength(s)..]); } else { StripShrinks(s[1..]); }
    }
  }

  lemma {:induction false} StarsShrink(s: string)
    ensures Shrinks(s, DropStars(s))
    ensures DropStars(s) == s <==> s == "" || s[0] != '*'
  {
    if s != "" && s[0] == '*' { StarsShrink(s[1..]); }
  }

  lemma {:induction false} WithoutShrinks(s: string, drop: char -> bool)
    ensures Shrinks(s, Without(s, drop))
    ensures Free(Without(s, drop), drop)
    ensures Without(s, drop) == s <==> Free(s, drop)
  {
    if s != "" {
      WithoutShrinks(s[1..], drop);
      assert s == [s[0]] + s[1..];
      if Free(s[1..], drop) && !drop(s[0]) {
        forall i | 0 <= i < |s| ensures !drop(s[i]) { if i > 0 { assert s[i] == s[1..][i - 1]; } }
      }
    }
  }

  /** Is there a backslash-quote anywhere? */
  ghost predicate HasQuoted(s: string) {
    exists i :: 0 <= i < |s| - 1 && s[i] == '\\' && s[i + 1] == '"'
  }

  lemma {:induction false} UnquoteShrinks(s: string)
    ensures Shrinks(s, Unquote(s))
    ensures !HasQuoted(s) ==> Unquote(s) == s
    ensures |Unquote(s)| == |s| ==> !HasQuoted(s)
    decreases |s|
  {
    if s != "" {
      assert s == [s[0]] + s[1..];
      if |s| >= 2 && s[0] == '\\' && s[1] == '"' {
        UnquoteShrinks(s[2..]);
        assert HasQuoted(s);
      } else {
        UnquoteShrinks(s[1..]);
        assert forall i :: 0 <= i < |s| - 1 ==> s[i + 1] == s[1..][i];
        if HasQuoted(s[1..]) {
          var i :| 0 <= i < |s[1..]| - 1 && s[1..][i] == '\\' && s[1..][i + 1] == '"';
          assert s[i + 1] == '\\' && s[i + 2] == '"';
        }
        if HasQuoted(s) {
          var i :| 0 <= i < |s| - 1 && s[i] == '\\' && s[i + 1] == '"';
          assert s[1..][i - 1] == '\\' && s[1..][i] == '"';
        }
      }
    }
  }

  /** No step brings in a control character. */
  lemma {:induction false} UnquoteFree(s: string)
    requires Free(s, IsControl)
    ensures Free(Unquote(s), IsControl)
    decreases |s|
  {
    if s != "" {
      if |s| >= 2 && s[0] == '\\' && s[1] == '"' { UnquoteFree(s[2..]); } else { UnquoteFree(s[1..]); }
    }
  }

  lemma {:induction false} JoinFree(ws: seq<string>)
    requires forall w :: w in ws ==> Free(w, IsControl)
    ensures Free(Join(ws, " "), IsControl)
  {
    if ws != [] {
      assert ws[0] in ws;
      JoinFree(ws[1..]);
    }
  }

  lemma {:induction false} TruncateAllFree(ws: seq<string>)
    requires forall w :: w in ws ==> Free(w, IsControl)
    ensures forall w :: w in TruncateAll(ws) ==> Free(w, IsControl)
  {
    if ws != [] {
      assert ws[0] in ws;
      TruncateAllFree(ws[1..]);
      var w, dots := ws[0], " ... ";
      assert Free(dots, IsControl);
      if |w| > MAX_WORD {
        assert Free(w[..KEEP_START], IsControl) && Free(w[|w| - KEEP_END..], IsControl);
      }
    }
  }

  lemma TruncateFree(s: string)
    requires Free(s, IsControl)
    ensures Free(TruncateText(s), IsControl)
  {
    var ws := Split(s, IsSpace);
    forall w | w in ws ensures Free(w, IsControl) {
      forall i | 0 <= i < |w| ensures !IsControl(w[i]) {
        PiecesWithin(s, IsSpace, w, w[i]);
        var j :| 0 <= j < |s| && s[j] == w[i];
      }
    }
    TruncateAllFree(ws);
    JoinFree(TruncateAll(ws));
  }

  lemma TruncateShrinks(s: string)
    ensures |TruncateText(s)| <= |s|
  {
    TruncateShorter(Split(s, IsSpace));
    JoinSplit(s, IsSpace, ' ');
  }

  lemma CleanedIsClean(message: string)
    ensures Free(Cleaned(message), IsControl) && |Cleaned(message)| <= |message|
  {
    var a := StripAnsi(message);
    var b := DropStars(a);
    var c := Without(b, IsTabOrNewline);
    var d := Without(c, IsControl);
    StripShrinks(message);
    StarsShrink(a);
    WithoutShrinks(b, IsTabOrNewline);
    WithoutShrinks(c, IsControl);
    UnquoteShrinks(d);
    UnquoteFree(d);
  }

  /** What is broadcast has no control character, is no longer than the message, and, unless it comes
      from a spawned process, has no word longer than 100. */
  lemma PreparedIsClean(level: string, message: string)
    ensures var m := Prepared(level, message);
            && Free(m, IsControl)
            && |m| <= |message|
            && (level != "spawn" ==> forall w :: w in Split(m, IsSpace) ==> |w| <= 100)
  {
    CleanedIsClean(message);
    var m := Cleaned(message);
    if level != "spawn" {
      TruncateFree(m);
      TruncateShrinks(m);
      TruncatedWords(m);
    }
  }

  /** A message that needs no cleaning. */
  ghost predicate IsClean(level: string, m: string) {
    && Free(m, IsControl)
    && (m == "" || m[0] != '*')
    && !HasQuoted(m)
    && (level != "spawn" ==> forall w :: w in Split(m, IsSpace) ==> |w| <= 100)
  }

  lemma {:induction false} StripFree(s: string)
    requires Free(s, IsControl)
    ensures StripAnsi(s) == s
  {
    if s != "" {
      assert !IsControl(s[0]);
      StripFree(s[1..]);
    }
  }

  lemma CleanedFixed(m: string)
    ensures Cleaned(m) == m <==> Free(m, IsControl) && (m == "" || m[0] != '*') && !HasQuoted(m)
    ensures |Cleaned(m)| == |m| ==> Cleaned(m) == m
  {
    var a := StripAnsi(m);
    var b := DropStars(a);
    var c := Without(b, IsTabOrNewline);
    var d := Without(c, IsControl);
    StripShrinks(m);
    StarsShrink(a);
    WithoutShrinks(b, IsTabOrNewline);
    WithoutShrinks(c, IsControl);
    UnquoteShrinks(d);
    if Free(m, IsControl) {
      StripFree(m);
      assert forall i :: 0 <= i < |m| ==> !IsTabOrNewline(m[i]) by {
        forall i | 0 <= i < |m| ensures !IsTabOrNewline(m[i]) { assert !IsControl(m[i]); }
      }
    }
  }

  /** The pipeline leaves a message alone exactly if it is clean. */
  lemma CleanExactly(level: string, m: string)
    ensures Prepared(level, m) == m <==> IsClean(level, m)
  {
    CleanedFixed(m);
    CleanedIsClean(m);
    if level != "spawn" {
      TruncateShrinks(Cleaned(m));
      TruncateIdempotent(Cleaned(m));
    }
  }

  // ---------- what the single replacements do ----------

  /** The opposite of `Unquote`: a backslash before every quote. */
  function Quote(s: string): string {
    if s == "" then "" else (if s[0] == '"' then "\\\"" else [s[0]]) + Quote(s[1..])
  }

  /** `Unquote` undoes `Quote` on every string, also one that has backslashes of its own. */
  lemma {:induction false} UnquoteUndoesQuote(s: string)
    ensures Unquote(Quote(s)) == s
    ensures Quote(s) == "" || Quote(s)[0] != '"'
  {
    if s != "" {
      UnquoteUndoesQuote(s[1..]);
      assert s == [s[0]] + s[1..];
      var q := Quote(s[1..]);
      if s[0] == '"' {
        assert ("\\\"" + q)[2..] == q;
      } else {
        assert ([s[0]] + q)[1..] == q;
      }
    }
  }

  /** Exactly the leading asterisks go. */
  lemma {:induction false} StarsDropped(s: string)
    ensures var n := |s| - |DropStars(s)|;
            && 0 <= n && s[n..] == DropStars(s)
            && (forall i :: 0 <= i < n ==> s[i] == '*')
            && (DropStars(s) == "" || DropStars(s)[0] != '*')
  {
    if s != "" && s[0] == '*' {
      StarsDropped(s[1..]);
      var n := |s| - |DropStars(s)|;
      assert s[n..] == s[1..][n - 1..];
      forall i | 0 <= i < n ensures s[i] == '*' { if i > 0 { assert s[i] == s[1..][i - 1]; } }
    }
  }

  /** Removing tabs and newlines first makes no difference: they are control characters. */
  lemma {:induction false} TabsAreControls(s: string)
    ensures Without(Without(s, IsTabOrNewline), IsControl) == Without(s, IsControl)
  {
    if s != "" {
      TabsAreControls(s[1..]);
      var r := Without(s[1..], IsTabOrNewline);
      if IsTabOrNewline(s[0]) {
        assert IsControl(s[0]) && "" + r == r;
      } else {
        var w := [s[0]] + r;
        assert w[0] == s[0] && w[1..] == r;
      }
    }
  }
}
