/** Characters and bytes: white space as the two languages of the repository see it, and the
    canonical form of a UUID. */
module Text {
  import opened Sequences

  type Byte = n: int | 0 <= n < 256

  predicate IsHex(c: char) {
    '0' <= c <= '9' || 'a' <= c <= 'f'
  }

  /** The canonical form of a UUID. */
  predicate IsUuid(s: string) {
    |s| == 36 && forall i :: 0 <= i < 36 ==> if i in {8, 13, 18, 23} then s[i] == '-' else IsHex(s[i])
  }

  /** Python's `str.isspace`, which `str.strip` removes. */
  predicate PythonSpace(c: char) {
    var n := c as int;
    9 <= n <= 13 || 28 <= n <= 32 || n in {0x85, 0xA0, 0x1680, 0x2028, 0x2029, 0x202F, 0x205F, 0x3000}
    || 0x2000 <= n <= 0x200A
  }

  /** ECMAScript's WhiteSpace and LineTerminator, which `String.prototype.trim` removes. */
  predicate ScriptSpace(c: char) {
    var n := c as int;
    9 <= n <= 13 || n in {0x20, 0xA0, 0x1680, 0x2028, 0x2029, 0x202F, 0x205F, 0x3000, 0xFEFF}
    || 0x2000 <= n <= 0x200A
  }

  predicate Blank(s: string) {
    forall i :: 0 <= i < |s| ==> PythonSpace(s[i])
  }

  /** Python's `str.strip` */
  function StripStart(s: string): string {
    if s != "" && PythonSpace(s[0]) then StripStart(s[1..]) else s
  }

  function StripEnd(s: string): string {
    if s != "" && PythonSpace(s[|s| - 1]) then StripEnd(s[..|s| - 1]) else s
  }

  function Strip(s: string): string {
    StripEnd(StripStart(s))
  }

  /** Begins and ends with a character that is no white space, or is empty. */
  predicate Bare(s: string) {
    s != "" ==> !PythonSpace(s[0]) && !PythonSpace(s[|s| - 1])
  }

  lemma {:induction false} StripStartOf(a: string, m: string)
    requires Blank(a) && (m != "" ==> !PythonSpace(m[0]))
    ensures StripStart(a + m) == m
    decreases |a|
  {
    if a == "" {
      assert a + m == m;
    } else {
      assert (a + m)[0] == a[0] && (a + m)[1..] == a[1..] + m;
      StripStartOf(a[1..], m);
    }
  }

  lemma {:induction false} StripEndOf(m: string, b: string)
    requires Blank(b) && (m != "" ==> !PythonSpace(m[|m| - 1]))
    ensures StripEnd(m + b) == m
    decreases |b|
  {
    if b == "" {
      assert m + b == m;
    } else {
      var whole := m + b;
      assert whole[|whole| - 1] == b[|b| - 1] && whole[..|whole| - 1] == m + b[..|b| - 1];
      StripEndOf(m, b[..|b| - 1]);
    }
  }

  /** Stripping takes away exactly the white space around a bare text. */
  lemma StripOf(a: string, m: string, b: string)
    requires Blank(a) && Bare(m) && Blank(b)
    ensures Strip(a + m + b) == m
  {
    if m == "" {
      assert a + m + b == (a + b) + "";
      StripStartOf(a + b, "");
    } else {
      Associates(a, m, b);
      assert (m + b)[0] == m[0];
      StripStartOf(a, m + b);
      StripEndOf(m, b);
    }
  }

  lemma {:induction false} StripStartSplits(s: string) returns (a: string)
    ensures Blank(a) && s == a + StripStart(s) && (StripStart(s) != "" ==> !PythonSpace(StripStart(s)[0]))
  {
    if s != "" && PythonSpace(s[0]) {
      a := StripStartSplits(s[1..]);
      assert s == [s[0]] + s[1..];
      Associates([s[0]], a, StripStart(s));
      a := [s[0]] + a;
    } else {
      a := "";
      assert s == "" + s;
    }
  }

  lemma {:induction false} StripEndSplits(s: string) returns (b: string)
    ensures Blank(b) && s == StripEnd(s) + b && (StripEnd(s) != "" ==> !PythonSpace(StripEnd(s)[|StripEnd(s)| - 1]))
  {
    if s != "" && PythonSpace(s[|s| - 1]) {
      var front, last := s[..|s| - 1], s[|s| - 1];
      b := StripEndSplits(front);
      TakeNext(s, |s| - 1);
      Associates(StripEnd(front), b, [last]);
      BlankSnoc(b, last);
      b := b + [last];
      assert s[..|s|] == s;
    } else {
      b := "";
      assert s == s + "";
    }
  }

  lemma BlankSnoc(b: string, c: char)
    requires Blank(b) && PythonSpace(c)
    ensures Blank(b + [c])
  {
  }

  /** Every text is a bare text with white space around it. */
  lemma StripSplits(s: string) returns (a: string, b: string)
    ensures Blank(a) && Bare(Strip(s)) && Blank(b) && s == a + Strip(s) + b
  {
    a := StripStartSplits(s);
    b := StripEndSplits(StripStart(s));
    Associates(a, Strip(s), b);
    assert Strip(s) != "" ==> StripStart(s)[0] == Strip(s)[0];
  }

  /** `not s.strip()`: a text is blank exactly when nothing is left of it. */
  lemma BlankExactly(s: string)
    ensures Blank(s) <==> Strip(s) == ""
    ensures Blank(s) <==> !exists i :: 0 <= i < |s| && !PythonSpace(s[i])
  {
    var a, b := StripSplits(s);
    if Strip(s) == "" {
      assert s == a + b;
    }
    if Blank(s) {
      assert s + "" + "" == s;
      StripOf(s, "", "");
    }
  }
}
