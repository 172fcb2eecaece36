/** Python's str.strip and the bounded optional text of domain/conversations/value_objects.py. */
module Text {
  import opened Prelude

  /** str.isspace for one character. */
  predicate IsSpace(c: char) {
    var n := c as int;
    9 <= n <= 13 || 28 <= n <= 32 || n == 0x85 || n == 0xA0 || n == 0x1680 || 0x2000 <= n <= 0x200A ||
    n == 0x2028 || n == 0x2029 || n == 0x202F || n == 0x205F || n == 0x3000
  }

  /** The characters, one by one. */
  lemma SpacesAre(c: char)
    ensures IsSpace(c) <==>
            c in {'\t', '\n', '\U{0B}', '\U{0C}', '\r', '\U{1C}', '\U{1D}', '\U{1E}', '\U{1F}', ' ', '\U{85}', '\U{A0}',
                  '\U{1680}', '\U{2000}', '\U{2001}', '\U{2002}', '\U{2003}', '\U{2004}', '\U{2005}', '\U{2006}',
                  '\U{2007}', '\U{2008}', '\U{2009}', '\U{200A}', '\U{2028}', '\U{2029}', '\U{202F}', '\U{205F}',
                  '\U{3000}'}
  {
    var n := c as int;
    assert c == n as char;
  }

  function StripLeft(s: string): string {
    if s != "" && IsSpace(s[0]) then StripLeft(s[1..]) else s
  }

  function StripRight(s: string): string {
    if s != "" && IsSpace(s[|s| - 1]) then StripRight(s[..|s| - 1]) else s
  }

  function Strip(s: string): string {
    StripRight(StripLeft(s))
  }

  predicate Blank(s: string) {
    Strip(s) == ""
  }

  /** Neither end is white space. */
  predicate Trimmed(s: string) {
    s == "" || (!IsSpace(s[0]) && !IsSpace(s[|s| - 1]))
  }

  lemma StripLeftStart(s: string)
    ensures StripLeft(s) == "" || !IsSpace(StripLeft(s)[0])
  {
  }

  lemma StripRightEnd(s: string)
    requires s == "" || !IsSpace(s[0])
    ensures Trimmed(StripRight(s))
    ensures s != "" ==> StripRight(s) != ""
  {
    if s != "" && IsSpace(s[|s| - 1]) {
      assert |s| > 1;
      StripRightEnd(s[..|s| - 1]);
    }
  }

  /** strip returns a trimmed text and changes no trimmed text. */
  lemma StripTrims(s: string)
    ensures Trimmed(Strip(s))
    ensures Trimmed(s) <==> Strip(s) == s
  {
    StripLeftStart(s);
    StripRightEnd(StripLeft(s));
  }

  predicate AllSpace(s: string) {
    forall i :: 0 <= i < |s| ==> IsSpace(s[i])
  }

  lemma {:induction false} StripLeftCuts(s: string) returns (a: string)
    ensures s == a + StripLeft(s) && AllSpace(a)
  {
    if s != "" && IsSpace(s[0]) {
      var rest := StripLeftCuts(s[1..]);
      a := [s[0]] + rest;
      assert s == [s[0]] + s[1..];
    } else {
      a := "";
    }
  }

  lemma {:induction false} StripRightCuts(s: string) returns (b: string)
    ensures s == StripRight(s) + b && AllSpace(b)
  {
    if s != "" && IsSpace(s[|s| - 1]) {
      var rest := StripRightCuts(s[..|s| - 1]);
      b := rest + [s[|s| - 1]];
      assert s == s[..|s| - 1] + [s[|s| - 1]];
    } else {
      b := "";
    }
  }

  /** Main result: strip takes white space away on both sides, and nothing else. */
  lemma {:induction false} StripIs(s: string) returns (a: string, b: string)
    ensures s == a + Strip(s) + b && AllSpace(a) && AllSpace(b) && Trimmed(Strip(s))
  {
    a := StripLeftCuts(s);
    b := StripRightCuts(StripLeft(s));
    StripTrims(s);
    assert a + (Strip(s) + b) == a + Strip(s) + b;
  }

  /** A text is blank exactly when it has no character but white space. */
  lemma {:induction false} BlankIff(s: string)
    ensures Blank(s) <==> AllSpace(s)
  {
    var a, b := StripIs(s);
    if Blank(s) {
      assert s == a + b;
    } else {
      assert s[|a|] == Strip(s)[0];
    }
  }

  /** Where the first character that is not white space stands. */
  lemma {:induction false} SameStart(s: string, a: string, c: string)
    requires a <= s && c <= s && |a| < |s| && |c| < |s| && AllSpace(a) && AllSpace(c)
    requires !IsSpace(s[|a|]) && !IsSpace(s[|c|])
    ensures |a| == |c|
  {
    assert forall i :: 0 <= i < |a| ==> IsSpace(s[i]);
    assert forall i :: 0 <= i < |c| ==> IsSpace(s[i]);
  }

  lemma {:induction false} SameEnd(s: string, m: nat, n: nat)
    requires 0 < m <= |s| && 0 < n <= |s| && AllSpace(s[m..]) && AllSpace(s[n..])
    requires !IsSpace(s[m - 1]) && !IsSpace(s[n - 1])
    ensures m == n
  {
    forall i | m <= i < |s|
      ensures IsSpace(s[i])
    {
      assert s[m..][i - m] == s[i];
    }
    forall i | n <= i < |s|
      ensures IsSpace(s[i])
    {
      assert s[n..][i - n] == s[i];
    }
  }

  /** There is only one such text. */
  lemma {:induction false} StripIsUnique(s: string, a: string, t: string, b: string)
    requires s == a + t + b && AllSpace(a) && AllSpace(b) && Trimmed(t) && t != ""
    ensures Strip(s) == t
  {
    var c, d := StripIs(s);
    var u := Strip(s);
    assert s[|a|] == t[0] && s[|a| + |t| - 1] == t[|t| - 1];
    BlankIff(s);
    assert u != "";
    assert s[|c|] == u[0] && s[|c| + |u| - 1] == u[|u| - 1];
    SameStart(s, a, c);
    assert s[|a| + |t|..] == b && s[|c| + |u|..] == d;
    SameEnd(s, |a| + |t|, |c| + |u|);
    assert t == s[|a|..|a| + |t|] && u == s[|c|..|c| + |u|];
  }

  datatype TextError = BlankText | TooLong

  /** optional_text: strip, then refuse blank and over-long text. */
  function OptionalText(value: Option<string>, max: nat): Result<Option<string>, TextError> {
    match value
    case None => Ok(None)
    case Some(s) =>
      var normalized := Strip(s);
      if normalized == "" then Err(BlankText)
      else if |normalized| > max then Err(TooLong)
      else Ok(Some(normalized))
  }

  /** What optional_text returns and accepts unchanged. */
  predicate NormalText(value: Option<string>, max: nat) {
    value.Some? ==> Trimmed(value.value) && 0 < |value.value| <= max
  }

  lemma OptionalTextNormal(value: Option<string>, max: nat)
    ensures OptionalText(value, max).Ok? ==> NormalText(OptionalText(value, max).value, max)
    ensures NormalText(value, max) <==> OptionalText(value, max) == Ok(value)
  {
    if value.Some? {
      StripTrims(value.value);
    }
  }
}
