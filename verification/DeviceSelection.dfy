/**
 Selecting and unselecting devices in a plugin's configuration: `selectdevice` and `unselectdevice` of
 `wsMessageHandler` in packages/core/src/frontend.ts.
 */
module DeviceSelection {
  import opened Optional
  import opened Sequences
  import opened Text

  // ---------- the two lists ----------

  /** `None` stands for a list that is missing or not an array. */
  datatype Lists = Lists(white: Option<seq<string>>, black: Option<seq<string>>)

  /** `list.filter((item) => item !== key)`. */
  function Except(l: seq<string>, key: string): seq<string> {
    if l == [] then [] else (if l[0] == key then [] else [l[0]]) + Except(l[1..], key)
  }

  function Include(l: seq<string>, key: string): seq<string> {
    if key in l then l else l + [key]
  }

  /** Select: into the white list unless that is empty, out of the black list. */
  function Select(l: Lists, key: string): Lists {
    Lists(
      if l.white.Some? && |l.white.value| >= 1 then Some(Include(l.white.value, key)) else l.white,
      if l.black.Some? && |l.black.value| >= 1 then Some(Except(l.black.value, key)) else l.black)
  }

  /** Unselect: out of the white list, into the black list. */
  function Unselect(l: Lists, key: string): Lists {
    Lists(
      if l.white.Some? && |l.white.value| >= 1 then Some(Except(l.white.value, key)) else l.white,
      if l.black.Some? then Some(Include(l.black.value, key)) else l.black)
  }

  lemma {:induction false} ExceptMembers(l: seq<string>, key: string)
    ensures forall x :: x in Except(l, key) <==> x in l && x != key
    ensures key !in l ==> Except(l, key) == l
  {
    if l != [] {
      assert l == [l[0]] + l[1..];
      ExceptMembers(l[1..], key);
    }
  }

  // ---------- the configuration, changed in place ----------

  /** What `schemaJson.properties.blackList.selectFrom` says. */
  datatype SelectMode = BySerial | ByName | Unsupported

  class PluginConfig {
    var postfix: string
    var whiteList: Option<seq<string>>
    var blackList: Option<seq<string>>

    constructor (postfix: string, whiteList: Option<seq<string>>, blackList: Option<seq<string>>)
      ensures this.postfix == postfix && View() == Lists(whiteList, blackList)
    {
      this.postfix, this.whiteList, this.blackList := postfix, whiteList, blackList;
    }

    ghost function View(): Lists
      reads this
    {
      Lists(whiteList, blackList)
    }

    /** The key a request stands for: the serial without the postfix, or the name. */
    function Key(select: SelectMode, serial: string, name: string): string
      reads this
    {
      if select.ByName? then name
      else if postfix == "" then serial
      else RemoveFirst(serial, "-" + postfix)
    }

    method SelectDevice(select: SelectMode, serial: string, name: string) returns (ok: bool)
      modifies this
      ensures ok <==> !select.Unsupported?
      ensures postfix == old(postfix)
      ensures select.Unsupported? ==> View() == old(View())
      ensures select.ByName? ==> View() == Select(old(View()), name)
      ensures select.BySerial? && (postfix == "" || !Contains(serial, "-" + postfix)) ==>
                View() == Select(old(View()), serial)
      ensures select.BySerial? && postfix != "" ==>
                forall i: nat :: FirstAt(serial, "-" + postfix, i) ==>
                  && i + 1 + |postfix| <= |serial|
                  && View() == Select(old(View()), serial[..i] + serial[i + 1 + |postfix|..])
    {
      if select.Unsupported? { return false; }
      var key := Key(select, serial, name);
      SerialWithoutPostfix(serial, postfix);
      if whiteList.Some? && |whiteList.value| >= 1 {
        if key !in whiteList.value { whiteList := Some(whiteList.value + [key]); }
      }
      if blackList.Some? && |blackList.value| >= 1 {
        ExceptMembers(blackList.value, key);
        if key in blackList.value { blackList := Some(Except(blackList.value, key)); }
      }
      return true;
    }

    method UnselectDevice(select: SelectMode, serial: string, name: string) returns (ok: bool)
      modifies this
      ensures ok <==> !select.Unsupported?
      ensures postfix == old(postfix)
      ensures select.Unsupported? ==> View() == old(View())
      ensures select.ByName? ==> View() == Unselect(old(View()), name)
      ensures select.BySerial? && (postfix == "" || !Contains(serial, "-" + postfix)) ==>
                View() == Unselect(old(View()), serial)
      ensures select.BySerial? && postfix != "" ==>
                forall i: nat :: FirstAt(serial, "-" + postfix, i) ==>
                  && i + 1 + |postfix| <= |serial|
                  && View() == Unselect(old(View()), serial[..i] + serial[i + 1 + |postfix|..])
    {
      if select.Unsupported? { return false; }
      var key := Key(select, serial, name);
      SerialWithoutPostfix(serial, postfix);
      if whiteList.Some? && |whiteList.value| >= 1 {
        ExceptMembers(whiteList.value, key);
        if key in whiteList.value { whiteList := Some(Except(whiteList.value, key)); }
      }
      if blackList.Some? {
        if key !in blackList.value { blackList := Some(blackList.value + [key]); }
      }
      return true;
    }
  }

  // ---------- every run of operations ----------

  datatype Op = SelectOp(key: string) | UnselectOp(key: string)

  function Apply(l: Lists, op: Op): Lists {
    match op
    case SelectOp(k) => Select(l, k)
    case UnselectOp(k) => Unselect(l, k)
  }

  function Run(l: Lists, ops: seq<Op>): Lists {
    if ops == [] then l else Apply(Run(l, ops[..|ops| - 1]), ops[|ops| - 1])
  }

  /** The last operation on a key, if there was one. */
  function LastOn(ops: seq<Op>, key: string): Option<Op> {
    if ops == [] then None
    else if ops[|ops| - 1].key == key then Some(ops[|ops| - 1])
    else LastOn(ops[..|ops| - 1], key)
  }

  predicate In(l: Option<seq<string>>, key: string) {
    l.Some? && key in l.value
  }

  /** A key is black-listed exactly if the last operation on it was an unselect, or if none
      was and it was there from the start. */
  lemma {:induction false} BlackIsLastUnselected(l: Lists, ops: seq<Op>, key: string)
    requires l.black.Some?
    ensures Run(l, ops).black.Some?
    ensures In(Run(l, ops).black, key) <==>
            match LastOn(ops, key) case None => In(l.black, key) case Some(op) => op.UnselectOp?
  {
    if ops != [] {
      var before, op := ops[..|ops| - 1], ops[|ops| - 1];
      BlackIsLastUnselected(l, before, key);
      ExceptMembers(Run(l, before).black.value, op.key);
    }
  }

  lemma {:induction false} EmptyWhiteStays(l: Lists, ops: seq<Op>)
    requires l.white == Some([])
    ensures Run(l, ops).white == Some([])
  {
    if ops != [] { EmptyWhiteStays(l, ops[..|ops| - 1]); }
  }

  /** A key is white-listed exactly if the list has not been emptied and the last operation on the key was a
      select, or none was and it was there from the start. */
  lemma {:induction false} WhiteIsLastSelected(l: Lists, ops: seq<Op>, key: string)
    requires l.white.Some?
    ensures Run(l, ops).white.Some?
    ensures In(Run(l, ops).white, key) <==>
            && Run(l, ops).white != Some([])
            && match LastOn(ops, key) case None => In(l.white, key) case Some(op) => op.SelectOp?
  {
    if ops != [] {
      var before, op := ops[..|ops| - 1], ops[|ops| - 1];
      WhiteIsLastSelected(l, before, key);
      var white := Run(l, before).white.value;
      ExceptMembers(white, op.key);
      if white == [] {
        assert Run(l, ops).white == Some([]);
      }
    }
  }

  /** The list is non-empty now exactly if it has been non-empty all along. */
  lemma {:induction false} NonEmptyAllAlong(l: Lists, ops: seq<Op>, k: nat)
    requires l.white.Some? && k <= |ops| && Run(l, ops).white != Some([])
    ensures Run(l, ops[..k]).white != Some([])
  {
    if k == |ops| {
      assert ops[..k] == ops;
    } else {
      var before := ops[..|ops| - 1];
      assert before[..k] == ops[..k];
      WhiteStaysSome(l, before);
      NonEmptyAllAlong(l, before, k);
    }
  }

  lemma {:induction false} WhiteStaysSome(l: Lists, ops: seq<Op>)
    requires l.white.Some?
    ensures Run(l, ops).white.Some?
  {
    if ops != [] { WhiteStaysSome(l, ops[..|ops| - 1]); }
  }

  /** Unselect and then select brings a white-listed key back exactly if it was not the only one. */
  lemma UnselectSelectRestores(l: Lists, key: string)
    requires In(l.white, key)
    ensures In(Select(Unselect(l, key), key).white, key) <==> exists x :: x in l.white.value && x != key
  {
    ExceptMembers(l.white.value, key);
    var rest := Except(l.white.value, key);
    if rest != [] { assert rest[0] in rest; }
  }

  lemma {:induction false} ExceptAppend(l: seq<string>, key: string, x: string)
    ensures Except(l + [x], key) == Except(l, key) + (if x == key then [] else [x])
  {
    if l != [] {
      assert (l + [x])[1..] == l[1..] + [x];
      ExceptAppend(l[1..], key, x);
    }
  }

  /** What an operation on `key` may do to a list: the other keys keep their places, and one that enters is last. */
  ghost predicate OnlyMoves(key: string, before: Option<seq<string>>, after: Option<seq<string>>) {
    && (before.None? <==> after.None?)
    && (before.Some? ==>
          && Except(after.value, key) == Except(before.value, key)
          && (key in after.value ==> after.value == before.value || after.value == before.value + [key]))
  }

  /** Every operation leaves a missing list missing, and moves no key but its own. */
  lemma OthersKeepPlace(l: Lists, op: Op)
    ensures OnlyMoves(op.key, l.white, Apply(l, op).white) && OnlyMoves(op.key, l.black, Apply(l, op).black)
  {
    if l.white.Some? { KeyMoves(l.white.value, op.key); }
    if l.black.Some? { KeyMoves(l.black.value, op.key); }
  }

  lemma KeyMoves(l: seq<string>, key: string)
    ensures Except(Except(l, key), key) == Except(l, key) && key !in Except(l, key)
    ensures Except(Include(l, key), key) == Except(l, key)
  {
    ExceptMembers(l, key);
    ExceptMembers(Except(l, key), key);
    ExceptAppend(l, key, key);
  }

  /** No key twice in a list, no key in both. */
  ghost predicate Tidy(l: Lists) {
    && (l.white.Some? ==> Distinct(l.white.value))
    && (l.black.Some? ==> Distinct(l.black.value))
    && (forall x :: !(In(l.white, x) && In(l.black, x)))
  }

  lemma {:induction false} ExceptDistinct(l: seq<string>, key: string)
    requires Distinct(l)
    ensures Distinct(Except(l, key))
  {
    if l != [] {
      var t, r := l[1..], Except(l[1..], key);
      assert forall i :: 0 <= i < |t| ==> t[i] == l[i + 1];
      ExceptDistinct(t, key);
      ExceptMembers(t, key);
      if l[0] != key {
        var e := Except(l, key);
        assert e == [l[0]] + r;
        forall i, j | 0 <= i < j < |e| ensures e[i] != e[j] {
          assert e[j] == r[j - 1] && e[j] in t;
          if i > 0 { assert e[i] == r[i - 1]; }
        }
      }
    }
  }

  lemma IncludeDistinct(l: seq<string>, key: string)
    requires Distinct(l)
    ensures Distinct(Include(l, key)) && forall x :: x in Include(l, key) <==> x in l || x == key
  {}

  lemma TidyStep(l: Lists, op: Op)
    requires Tidy(l)
    ensures Tidy(Apply(l, op))
  {
    var k := op.key;
    var l' := Apply(l, op);
    if l.white.Some? {
      ExceptDistinct(l.white.value, k);
      ExceptMembers(l.white.value, k);
      IncludeDistinct(l.white.value, k);
    }
    if l.black.Some? {
      ExceptDistinct(l.black.value, k);
      ExceptMembers(l.black.value, k);
      IncludeDistinct(l.black.value, k);
    }
    forall x ensures !(In(l'.white, x) && In(l'.black, x)) {
      assert !(In(l.white, x) && In(l.black, x));
    }
  }

  /** Lists that start disjoint and without duplicates stay so. */
  lemma {:induction false} TidyRun(l: Lists, ops: seq<Op>)
    requires Tidy(l)
    ensures Tidy(Run(l, ops))
  {
    if ops != [] {
      TidyRun(l, ops[..|ops| - 1]);
      TidyStep(Run(l, ops[..|ops| - 1]), ops[|ops| - 1]);
    }
  }

  // ---------- the postfix of a serial ----------

  predicate StartsWith(s: string, pat: string) {
    |pat| <= |s| && s[..|pat|] == pat
  }

  /** `s.replace(pat, '')`: the first occurrence goes. */
  function RemoveFirst(s: string, pat: string): string {
    if StartsWith(s, pat) then s[|pat|..]
    else if s == "" then ""
    else [s[0]] + RemoveFirst(s[1..], pat)
  }

  predicate Contains(s: string, pat: string) {
    StartsWith(s, pat) || (s != "" && Contains(s[1..], pat))
  }

  /** The first occurrence of `pat` in `s` is at `i`. */
  predicate FirstAt(s: string, pat: string, i: nat) {
    if i == 0 then StartsWith(s, pat)
    else s != "" && !StartsWith(s, pat) && FirstAt(s[1..], pat, i - 1)
  }

  lemma {:induction false} CutFirst(s: string, pat: string, i: nat)
    requires FirstAt(s, pat, i)
    ensures i + |pat| <= |s| && Contains(s, pat) && RemoveFirst(s, pat) == s[..i] + s[i + |pat|..]
    decreases i
  {
    if i == 0 {
      CutHead(s, |pat|);
    } else {
      CutFirst(s[1..], pat, i - 1);
      CutShift(s, i, |pat|);
    }
  }

  lemma CutHead(s: string, n: nat)
    requires n <= |s|
    ensures s[..0] + s[n..] == s[n..]
  {}

  /** That is: it occurs there, */
  lemma {:induction false} FirstOccurs(s: string, pat: string, i: nat)
    requires FirstAt(s, pat, i)
    ensures i <= |s| && StartsWith(s[i..], pat)
    decreases i
  {
    if i > 0 {
      FirstOccurs(s[1..], pat, i - 1);
      assert s[1..][i - 1..] == s[i..];
    } else {
      assert s[0..] == s;
    }
  }

  /** and at no earlier place. */
  lemma {:induction false} NoneBefore(s: string, pat: string, i: nat, j: nat)
    requires FirstAt(s, pat, i) && j < i
    ensures j <= |s| && !StartsWith(s[j..], pat)
    decreases i
  {
    if j > 0 {
      NoneBefore(s[1..], pat, i - 1, j - 1);
      assert s[1..][j - 1..] == s[j..];
    } else {
      assert s[0..] == s;
    }
  }

  lemma {:induction false} FirstExists(s: string, pat: string)
    ensures if Contains(s, pat) then exists i: nat :: FirstAt(s, pat, i) else RemoveFirst(s, pat) == s
  {
    if StartsWith(s, pat) {
      assert FirstAt(s, pat, 0);
    } else if s != "" {
      FirstExists(s[1..], pat);
      if Contains(s, pat) {
        var i: nat :| FirstAt(s[1..], pat, i);
        assert FirstAt(s, pat, i + 1);
      }
    }
  }

  /** Without an occurrence the string stays; otherwise exactly the first occurrence is cut out. */
  lemma RemoveFirstExactly(s: string, pat: string)
    ensures Contains(s, pat) <==> exists i: nat :: FirstAt(s, pat, i)
    ensures !Contains(s, pat) ==> RemoveFirst(s, pat) == s
    ensures forall i: nat :: FirstAt(s, pat, i) ==>
              i + |pat| <= |s| && RemoveFirst(s, pat) == s[..i] + s[i + |pat|..]
  {
    FirstExists(s, pat);
    forall i: nat | FirstAt(s, pat, i)
      ensures i + |pat| <= |s| && Contains(s, pat) && RemoveFirst(s, pat) == s[..i] + s[i + |pat|..]
    {
      CutFirst(s, pat, i);
    }
  }

  lemma CutShift(s: string, i: nat, n: nat)
    requires 0 < i && i + n <= |s|
    ensures [s[0]] + (s[1..][..i - 1] + s[1..][i - 1 + n..]) == s[..i] + s[i + n..]
  {
    assert s[1..][..i - 1] == s[1..i] && s[1..][i - 1 + n..] == s[i + n..];
    assert [s[0]] + s[1..i] == s[..i];
  }

  lemma SerialWithoutPostfix(serial: string, postfix: string)
    ensures var pat := "-" + postfix;
            && (!Contains(serial, pat) ==> RemoveFirst(serial, pat) == serial)
            && (forall i: nat :: FirstAt(serial, pat, i) ==>
                  && i + 1 + |postfix| <= |serial|
                  && RemoveFirst(serial, pat) == serial[..i] + serial[i + 1 + |postfix|..])
  {
    RemoveFirstExactly(serial, "-" + postfix);
  }

  /** `s` is `pat` written any number of times. */
  predicate Repeats(s: string, pat: string)
    requires pat != ""
    decreases |s|
  {
    s == "" || (StartsWith(s, pat) && Repeats(s[|pat|..], pat))
  }

  /** What remains of `s` from the first occurrence of `pat` on. */
  function FromFirst(s: string, pat: string): string {
    if StartsWith(s, pat) || s == "" then s else FromFirst(s[1..], pat)
  }

  ghost predicate NoDash(s: string) {
    forall i :: 0 <= i < |s| ==> s[i] != '-'
  }

  /** Before a non-empty rest no occurrence can straddle the boundary: the pattern has a dash only at its start. */
  lemma StartsStraddling(s: string, postfix: string)
    requires NoDash(postfix) && s != ""
    ensures var pat := "-" + postfix; StartsWith(s + pat, pat) <==> StartsWith(s, pat)
  {
    var pat := "-" + postfix;
    var head := (s + pat)[..|pat|];
    if |s| < |pat| {
      assert head[|s|] == '-';
      assert pat[|s|] == postfix[|s| - 1];
      assert head != pat;
    } else {
      assert head == s[..|pat|];
    }
  }

  /** A rest that commutes with the pattern is a repetition of it. */
  lemma {:induction false} CommutesExactly(r: string, postfix: string)
    requires NoDash(postfix)
    ensures var pat := "-" + postfix; r + pat == pat + r <==> Repeats(r, pat)
    decreases |r|
  {
    var pat := "-" + postfix;
    if r == "" {
      assert r + pat == pat + r;
    } else if StartsWith(r, pat) {
      var t := r[|pat|..];
      CommutesExactly(t, postfix);
      assert r == pat + t;
      assert r + pat == pat + (t + pat) && pat + r == pat + (pat + t);
      SameHead(pat, t + pat, pat + t);
    } else {
      StartsStraddling(r, postfix);
      assert (pat + r)[..|pat|] == pat;
      assert (r + pat)[..|pat|] != pat;
    }
  }

  /** Removing a postfix without dash undoes adding it exactly if, from the first occurrence on, the base
      is nothing but that postfix over and over; in particular when it does not occur in the base at all. */
  lemma {:induction false} PostfixRoundTrip(base: string, postfix: string)
    requires NoDash(postfix)
    ensures var pat := "-" + postfix;
            RemoveFirst(base + pat, pat) == base <==> !Contains(base, pat) || Repeats(FromFirst(base, pat), pat)
  {
    var pat := "-" + postfix;
    if base == "" {
      assert base + pat == pat && StartsWith(pat, pat);
    } else {
      StartsStraddling(base, postfix);
      if StartsWith(base, pat) {
        var r := base[|pat|..];
        assert base == pat + r;
        assert (base + pat)[|pat|..] == r + pat;
        CommutesExactly(r, postfix);
      } else {
        PostfixRoundTrip(base[1..], postfix);
        assert (base + pat)[1..] == base[1..] + pat && (base + pat)[0] == base[0];
        assert base == [base[0]] + base[1..];
        SameHead([base[0]], RemoveFirst(base[1..] + pat, pat), base[1..]);
      }
    }
  }

  // For any postfix, also one with dashes in it.

  /** What remains of `s` from where the first occurrence of `pat` in `s + pat` begins. */
  function FromFirstOver(s: string, pat: string): string {
    if s == "" || StartsWith(s + pat, pat) then s else FromFirstOver(s[1..], pat)
  }

  function Power(w: string, n: nat): string {
    if n == 0 then "" else w + Power(w, n - 1)
  }

  ghost predicate PowersOf(w: string, a: nat, b: nat, x: string, y: string) {
    x == Power(w, a) && y == Power(w, b)
  }

  /** Both strings are one word written some number of times. */
  ghost predicate CommonRoot(x: string, y: string) {
    exists w: string, a: nat, b: nat :: PowersOf(w, a, b, x, y)
  }

  lemma {:induction false} PowerSum(w: string, a: nat, b: nat)
    ensures Power(w, a) + Power(w, b) == Power(w, a + b)
  {
    if a > 0 {
      PowerSum(w, a - 1, b);
      assert w + Power(w, a - 1) + Power(w, b) == w + (Power(w, a - 1) + Power(w, b));
    }
  }

  /** Two strings commute exactly if they have a common root. */
  lemma {:induction false} CommutingWords(x: string, y: string)
    ensures x + y == y + x <==> CommonRoot(x, y)
    decreases |x| + |y|, |x|
  {
    if CommonRoot(x, y) {
      var w, a: nat, b: nat :| PowersOf(w, a, b, x, y);
      PowerSum(w, a, b);
      PowerSum(w, b, a);
    }
    if x + y == y + x { RootOf(x, y); }
  }

  lemma {:induction false} RootOf(x: string, y: string)
    requires x + y == y + x
    ensures CommonRoot(x, y)
    decreases |x| + |y|, |x|
  {
    if x == "" {
      assert Power(y, 1) == y + "" == y;
      assert PowersOf(y, 0, 1, x, y);
    } else if |x| > |y| {
      RootOf(y, x);
      var w, a: nat, b: nat :| PowersOf(w, a, b, y, x);
      assert PowersOf(w, b, a, x, y);
    } else {
      var z := y[|x|..];
      assert x == (x + y)[..|x|] == (y + x)[..|x|] == y[..|x|];
      assert y == x + z;
      assert x + (x + z) == x + (z + x) by { assert x + z + x == x + (z + x); }
      SameHead(x, x + z, z + x);
      RootOf(x, z);
      var w, a: nat, b: nat :| PowersOf(w, a, b, x, z);
      PowerSum(w, a, b);
      assert PowersOf(w, a, a + b, x, y);
    }
  }

  /** Removing any pattern undoes adding it exactly if the base, from where the first occurrence begins, and the
      pattern are repetitions of one word. */
  lemma {:induction false} AnyPostfixRoundTrip(base: string, pat: string)
    ensures RemoveFirst(base + pat, pat) == base <==> CommonRoot(FromFirstOver(base, pat), pat)
  {
    if base == "" {
      assert base + pat == pat && StartsWith(pat, pat);
      assert FromFirstOver(base, pat) == "" && "" + pat == pat + "";
      CommutingWords("", pat);
    } else if StartsWith(base + pat, pat) {
      var v := (base + pat)[|pat|..];
      assert base + pat == pat + v;
      SameHead(pat, v, base);
      CommutingWords(base, pat);
    } else {
      AnyPostfixRoundTrip(base[1..], pat);
      assert (base + pat)[1..] == base[1..] + pat && (base + pat)[0] == base[0];
      assert base == [base[0]] + base[1..];
      SameHead([base[0]], RemoveFirst(base[1..] + pat, pat), base[1..]);
    }
  }

  /** With a dash in the postfix an earlier, overlapping occurrence can be hit although the base does not contain it. */
  lemma DashedPostfixFails()
    ensures !Contains("x-a", "-a-") && RemoveFirst("x-a" + "-a-", "-a-") == "xa-"
  {
    var s := "x-a-a-";
    assert "x-a" + "-a-" == s;
    assert s[..3] == "x-a" && s[..3][0] == 'x';
    assert s[1..] == "-a-a-" && s[1..][..3] == "-a-" && s[1..][3..] == "a-";
    assert RemoveFirst(s[1..], "-a-") == "a-";
    assert !StartsWith("x-a", "-a-") by { assert "x-a"[0] != "-a-"[0]; }
    assert "x-a"[1..] == "-a" && "-a"[1..] == "a" && "a"[1..] == "";
  }
}
