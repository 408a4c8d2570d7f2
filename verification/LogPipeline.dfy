/**
 What `wssSendLogMessage` sends for every message (packages/core/src/frontend.ts and
 packages/core/src/backendWsServer.ts), stated on what the message is made of: characters that show, control characters,
 and ANSI sequences.
 */
module LogPipeline {
  import opened Optional
  import opened Text
  import opened LogText

  // ---------- what a message is made of ----------

  /** The first `n` characters of `s` are an ANSI sequence. */
  predicate IsSequence(s: string, n: nat) {
    && 3 <= n <= |s| && s[0] == '\U{1B}' && s[1] == '['
    && (forall k :: 2 <= k < n - 1 ==> Inner(s[k]))
    && Outer(s[n - 1])
  }

  /** A digit or a semicolon. */
  predicate Inner(c: char) {
    48 <= c as int <= 57 || c as int == 59
  }

  /** One of K, m, s, u and the bar. */
  predicate Outer(c: char) {
    var k := c as int; k == 75 || k == 109 || k == 115 || k == 117 || k == 124
  }

  ghost predicate Opens(s: string) {
    exists n: nat :: IsSequence(s, n)
  }

  datatype Bit = Shown(c: char) | Hidden(c: char) | Escape(text: string)

  predicate Hides(c: char) {
    c as int < 32 || c as int == 127
  }

  function RenderedBit(bit: Bit): string {
    match bit case Escape(t) => t case Shown(c) => [c] case Hidden(c) => [c]
  }

  function Rendered(bits: seq<Bit>): string {
    if bits == [] then ""
    else RenderedBit(bits[0]) + Rendered(bits[1..])
  }

  /** Every character is what it is called, and an escape character on its own does not open a sequence. */
  ghost predicate ValidBits(bits: seq<Bit>) {
    bits == [] ||
    (&& ValidBits(bits[1..])
     && match bits[0]
        case Shown(c) => !Hides(c)
        case Hidden(c) => Hides(c) && (c == '\U{1B}' ==> !Opens(Rendered(bits)))
        case Escape(t) => IsSequence(t, |t|))
  }

  /** The text that shows. */
  function Visible(bits: seq<Bit>): string {
    if bits == [] then "" else (if bits[0].Shown? then [bits[0].c] else "") + Visible(bits[1..])
  }

  /** The rest of the message after the asterisks it starts with, sequences in between not counting. */
  function AfterStars(bits: seq<Bit>): seq<Bit> {
    if bits != [] && (bits[0].Escape? || bits[0] == Shown('*')) then AfterStars(bits[1..]) else bits
  }

  // ---------- sequences ----------

  lemma ClassesAre(c: char)
    ensures IsParameter(c) <==> Inner(c)
    ensures IsFinal(c) <==> Outer(c)
    ensures IsControl(c) <==> Hides(c)
  {}

  /** Stripping recognises exactly the sequences. */
  lemma AnsiIsSequence(s: string)
    ensures AnsiLength(s) > 0 ==> IsSequence(s, AnsiLength(s))
    ensures forall n: nat :: IsSequence(s, n) ==> AnsiLength(s) == n
  {
    if AnsiLength(s) > 0 {
      AnsiHead(s);
      var n := AnsiLength(s);
      ClassesAre(s[n - 1]);
      forall k | 2 <= k < n - 1 ensures Inner(s[k]) {
        ClassesAre(s[k]);
        assert s[2..n - 1][k - 2] == s[k];
      }
    }
    forall n: nat | IsSequence(s, n) ensures AnsiLength(s) == n {
      var ps, f := s[2..n - 1], s[n - 1];
      forall k | 0 <= k < |ps| ensures IsParameter(ps[k]) { ClassesAre(s[k + 2]); }
      ClassesAre(f);
      assert s[2..] == ps + [f] + s[n..];
      ParameterRunIs(ps, f, s[n..]);
    }
  }

  // ---------- the steps ----------

  /** What is left without the sequences. */
  function Kept(bits: seq<Bit>): string {
    if bits == [] then "" else (if bits[0].Escape? then "" else [bits[0].c]) + Kept(bits[1..])
  }

  lemma {:induction false} StripBits(bits: seq<Bit>)
    requires ValidBits(bits)
    ensures StripAnsi(Rendered(bits)) == Kept(bits)
  {
    if bits != [] {
      StripBits(bits[1..]);
      var s, rest := Rendered(bits), Rendered(bits[1..]);
      AnsiIsSequence(s);
      match bits[0]
      case Escape(t) =>
        assert forall k :: 0 <= k < |t| ==> s[k] == t[k];
        assert IsSequence(s, |t|) && s[|t|..] == rest;
      case Shown(c) => assert s[0] == c && s[1..] == rest;
      case Hidden(c) =>
        assert s[0] == c && s[1..] == rest;
        assert AnsiLength(s) == 0;
    }
  }

  lemma {:induction false} StarBits(bits: seq<Bit>)
    requires ValidBits(bits)
    ensures DropStars(Kept(bits)) == Kept(AfterStars(bits)) && ValidBits(AfterStars(bits))
  {
    if bits != [] {
      if bits[0].Escape? || bits[0] == Shown('*') { StarBits(bits[1..]); }
      if bits[0].Escape? { assert Kept(bits) == Kept(bits[1..]); } else { assert Kept(bits)[1..] == Kept(bits[1..]); }
    }
  }

  lemma {:induction false} ControlBits(bits: seq<Bit>)
    requires ValidBits(bits)
    ensures Without(Kept(bits), IsControl) == Visible(bits)
  {
    if bits != [] {
      ControlBits(bits[1..]);
      if !bits[0].Escape? {
        ClassesAre(bits[0].c);
        assert Kept(bits)[1..] == Kept(bits[1..]);
      } else {
        assert Kept(bits) == Kept(bits[1..]);
      }
    }
  }

  // ---------- the pipeline ----------

  /** What is sent for a message of these bits: the text that shows after the leading asterisks, quotes unescaped, and
      long words truncated unless it comes from a spawned process. */
  function Sent(level: string, bits: seq<Bit>): string {
    var text := Unquote(Visible(AfterStars(bits)));
    if level == "spawn" then text else TruncateText(text)
  }

  lemma PreparedIsSent(level: string, bits: seq<Bit>)
    requires ValidBits(bits)
    ensures Prepared(level, Rendered(bits)) == Sent(level, bits)
  {
    StripBits(bits);
    StarBits(bits);
    var rest := AfterStars(bits);
    TabsAreControls(Kept(rest));
    ControlBits(rest);
  }

  /** Reading a message back. */
  function Bits(s: string): seq<Bit>
    decreases |s|
  {
    if s == "" then []
    else if AnsiLength(s) > 0 then [Escape(s[..AnsiLength(s)])] + Bits(s[AnsiLength(s)..])
    else [if Hides(s[0]) then Hidden(s[0]) else Shown(s[0])] + Bits(s[1..])
  }

  lemma EscapeFirst(s: string, n: nat, rest: seq<Bit>)
    requires IsSequence(s, n) && ValidBits(rest) && Rendered(rest) == s[n..]
    ensures var bits := [Escape(s[..n])] + rest; ValidBits(bits) && Rendered(bits) == s
  {
    var bits := [Escape(s[..n])] + rest;
    assert bits[1..] == rest && bits[0] == Escape(s[..n]);
    assert IsSequence(s[..n], n);
    assert s[..n] + s[n..] == s;
  }

  lemma CharacterFirst(s: string, rest: seq<Bit>)
    requires s != "" && !Opens(s) && ValidBits(rest) && Rendered(rest) == s[1..]
    ensures var bits := [if Hides(s[0]) then Hidden(s[0]) else Shown(s[0])] + rest;
            ValidBits(bits) && Rendered(bits) == s
  {
    var bits := [if Hides(s[0]) then Hidden(s[0]) else Shown(s[0])] + rest;
    assert bits[1..] == rest;
    assert Rendered(bits) == [s[0]] + s[1..];
    assert [s[0]] + s[1..] == s;
  }

  /** Every message is made of such bits. */
  lemma {:induction false} EveryMessageIsBits(s: string)
    ensures ValidBits(Bits(s)) && Rendered(Bits(s)) == s
    decreases |s|
  {
    if s != "" {
      var n := AnsiLength(s);
      AnsiIsSequence(s);
      if n > 0 {
        EveryMessageIsBits(s[n..]);
        EscapeFirst(s, n, Bits(s[n..]));
      } else {
        EveryMessageIsBits(s[1..]);
        CharacterFirst(s, Bits(s[1..]));
      }
    }
  }

  /** A message whose text that shows is clean is sent as exactly that text, whatever control characters and sequences
      are interleaved with it. */
  lemma CleanTextIsSent(level: string, bits: seq<Bit>)
    requires ValidBits(bits) && IsClean(level, Visible(bits))
    ensures Prepared(level, Rendered(bits)) == Visible(bits)
  {
    PreparedIsSent(level, bits);
    NoStars(bits);
    UnquoteShrinks(Visible(bits));
    TruncateIdempotent(Visible(bits));
  }

  lemma {:induction false} NoStars(bits: seq<Bit>)
    requires Visible(bits) == "" || Visible(bits)[0] != '*'
    ensures Visible(AfterStars(bits)) == Visible(bits)
  {
    if bits != [] && (bits[0].Escape? || bits[0] == Shown('*')) {
      assert bits[0].Escape? ==> Visible(bits) == Visible(bits[1..]);
      NoStars(bits[1..]);
    }
  }

  // ---------- quotes ----------

  /** Text without backslash-quotes stays, and each backslash-quote becomes a quote. */
  lemma {:induction false} UnquoteAround(p: string, x: string)
    requires !HasQuoted(p)
    ensures Unquote(p + "\\\"" + x) == p + "\"" + Unquote(x)
  {
    var s := p + "\\\"" + x;
    if p == "" {
      assert s[0] == '\\' && s[1] == '"' && s[2..] == x;
    } else {
      assert s[1..] == p[1..] + "\\\"" + x && s[0] == p[0];
      assert |p| >= 2 ==> s[1] == p[1];
      assert |p| == 1 ==> s[1] == '\\';
      forall i | 0 <= i < |p[1..]| - 1 ensures !(p[1..][i] == '\\' && p[1..][i + 1] == '"') {
        assert p[1..][i] == p[i + 1] && p[1..][i + 1] == p[i + 2];
      }
      UnquoteAround(p[1..], x);
      assert p == [p[0]] + p[1..];
    }
  }

  function CutQuotes(s: string): (ps: seq<string>)
    ensures |ps| >= 1
    decreases |s|
  {
    if s == "" then [""]
    else if |s| >= 2 && s[0] == '\\' && s[1] == '"' then [""] + CutQuotes(s[2..])
    else var rest := CutQuotes(s[1..]); [[s[0]] + rest[0]] + rest[1..]
  }

  /** Every text can be cut at its backslash-quotes. */
  lemma {:induction false} EveryTextIsCut(s: string)
    ensures Join(CutQuotes(s), "\\\"") == s && forall p :: p in CutQuotes(s) ==> !HasQuoted(p)
    decreases |s|
  {
    if s != "" {
      var ps := CutQuotes(s);
      if |s| >= 2 && s[0] == '\\' && s[1] == '"' {
        EveryTextIsCut(s[2..]);
        assert ps[1..] == CutQuotes(s[2..]);
        assert "" + "\\\"" + s[2..] == s;
      } else {
        var rest := CutQuotes(s[1..]);
        EveryTextIsCut(s[1..]);
        assert rest[0] in rest && ps[1..] == rest[1..];
        assert rest[0] != "" ==> s[1] == rest[0][0];
        forall p | p in ps ensures !HasQuoted(p) {
          if p in rest[1..] { assert p in rest; } else { CutFirst(s[0], rest[0]); }
        }
        JoinFirst(s[0], rest);
      }
    }
  }

  lemma CutFirst(c: char, p: string)
    requires !HasQuoted(p) && !(p != "" && c == '\\' && p[0] == '"')
    ensures !HasQuoted([c] + p)
  {
    var q := [c] + p;
    forall i | 0 <= i < |q| - 1 ensures !(q[i] == '\\' && q[i + 1] == '"') {
      if i > 0 { assert q[i] == p[i - 1] && q[i + 1] == p[i]; }
    }
  }

  lemma Regroup(a: string, b: string, c: string, d: string)
    ensures (a + b) + c + d == a + (b + c + d)
  {}

  lemma JoinFirst(c: char, ps: seq<string>)
    requires |ps| >= 1
    ensures Join([[c] + ps[0]] + ps[1..], "\\\"") == [c] + Join(ps, "\\\"")
  {
    var qs := [[c] + ps[0]] + ps[1..];
    assert qs[0] == [c] + ps[0] && qs[1..] == ps[1..];
    if |ps| > 1 { Regroup([c], ps[0], "\\\"", Join(ps[1..], "\\\"")); }
  }

  /** On every text: cut at its backslash-quotes, the pieces stay and are joined by quotes. */
  lemma {:induction false} UnquoteJoins(ps: seq<string>)
    requires ps != [] && forall p :: p in ps ==> !HasQuoted(p)
    ensures Unquote(Join(ps, "\\\"")) == Join(ps, "\"")
  {
    assert ps[0] in ps;
    if |ps| == 1 {
      UnquoteShrinks(ps[0]);
    } else {
      UnquoteJoins(ps[1..]);
      UnquoteAround(ps[0], Join(ps[1..], "\\\""));
    }
  }

  // ---------- the method ----------

  /** `wssSendLogMessage`: what is broadcast, if anything; `active` says that the server has clients. */
  method SendLogMessage(active: bool, level: string, time: string, name: string, message: string)
    returns (sent: Option<string>)
    ensures sent.Some? <==> active && level != "" && time != "" && name != "" && message != ""
    ensures sent.Some? ==> sent.value == Prepared(level, message)
    ensures sent.Some? ==>
              forall bits :: ValidBits(bits) && Rendered(bits) == message ==> sent.value == Sent(level, bits)
    ensures sent.Some? ==> Free(sent.value, IsControl) && |sent.value| <= |message|
    ensures sent.Some? && level != "spawn" ==> forall w :: w in Split(sent.value, IsSpace) ==> |w| <= 100
  {
    if !active { return None; }
    if level == "" || time == "" || name == "" || message == "" { return None; }
    PreparedIsClean(level, message);
    forall bits | ValidBits(bits) && Rendered(bits) == message ensures Prepared(level, message) == Sent(level, bits) {
      PreparedIsSent(level, bits);
    }
    var m := message;
    m := StripAnsi(m);
    m := DropStars(m);
    m := Without(m, IsTabOrNewline);
    m := Without(m, IsControl);
    m := Unquote(m);
    if level != "spawn" {
      m := Join(TruncateAll(Split(m, IsSpace)), " ");
    }
    return Some(m);
  }
}
