/** Optional text the way the backend treats it: `None` and `""` are both "nothing". */
module Text {
  datatype Option<+T> = None | Some(value: T)

  predicate IsSpace(c: char) {
    c == ' ' || c == '\t' || c == '\n' || c == '\r'
  }

  function StripLeft(s: string): (r: string)
    ensures |r| <= |s|
    ensures r == "" || !IsSpace(r[0])
  {
    if s != "" && IsSpace(s[0]) then StripLeft(s[1..]) else s
  }

  function StripRight(s: string): (r: string)
    ensures r <= s
    ensures r == "" || !IsSpace(r[|r| - 1])
  {
    if s != "" && IsSpace(s[|s| - 1]) then StripRight(s[..|s| - 1]) else s
  }

  /** Surrounding white space removed. */
  function Strip(s: string): (r: string)
    ensures r == "" || (!IsSpace(r[0]) && !IsSpace(r[|r| - 1]))
  {
    var left := StripLeft(s);
    var r := StripRight(left);
    assert r != "" ==> r[0] == left[0];
    r
  }

  function LowerChar(c: char): char {
    if 'A' <= c <= 'Z' then (c as int + 32) as char else c
  }

  function UpperChar(c: char): char {
    if 'a' <= c <= 'z' then (c as int - 32) as char else c
  }

  function Lower(s: string): string {
    seq(|s|, i requires 0 <= i < |s| => LowerChar(s[i]))
  }

  function Upper(s: string): string {
    seq(|s|, i requires 0 <= i < |s| => UpperChar(s[i]))
  }

  predicate Truthy(v: Option<string>) {
    v.Some? && v.value != ""
  }

  /** The first of the two that says something, else the second as it is. */
  function Or(a: Option<string>, b: Option<string>): Option<string> {
    if Truthy(a) then a else b
  }

  predicate StartsWith(s: string, needle: string) {
    |needle| <= |s| && s[..|needle|] == needle
  }

  predicate Contains(s: string, needle: string) {
    StartsWith(s, needle) || (s != "" && Contains(s[1..], needle))
  }

  // ---- what they come to --------------------------------------------------------------------

  /** The needle stands at position i. */
  predicate StandsAt(s: string, needle: string, i: nat) {
    i + |needle| <= |s| && s[i..i + |needle|] == needle
  }

  lemma {:induction false} ContainsIff(s: string, needle: string)
    ensures Contains(s, needle) <==> exists i: nat :: StandsAt(s, needle, i)
  {
    if StartsWith(s, needle) {
      assert s[0..0 + |needle|] == needle;
      assert StandsAt(s, needle, 0);
    } else if s == "" {
      assert forall i: nat :: !StandsAt(s, needle, i);
    } else {
      ContainsIff(s[1..], needle);
      ShiftedStands(s, needle);
    }
  }

  lemma ShiftedStands(s: string, needle: string)
    requires s != "" && !StartsWith(s, needle)
    ensures (exists i: nat :: StandsAt(s, needle, i)) <==> (exists i: nat :: StandsAt(s[1..], needle, i))
  {
    if i: nat :| StandsAt(s, needle, i) {
      assert i > 0 by {
        assert s[..|needle|] == s[0..0 + |needle|];
      }
      assert s[1..][i - 1..i - 1 + |needle|] == s[i..i + |needle|];
      assert StandsAt(s[1..], needle, i - 1);
    }
    if i: nat :| StandsAt(s[1..], needle, i) {
      assert s[1..][i..i + |needle|] == s[i + 1..i + 1 + |needle|];
      assert StandsAt(s, needle, i + 1);
    }
  }

  predicate Blank(s: string) {
    forall c | c in s :: IsSpace(c)
  }

  lemma {:induction false} StripLeftOfPadded(pad: string, s: string)
    requires Blank(pad)
    ensures StripLeft(pad + s) == StripLeft(s)
  {
    if pad == "" {
      assert pad + s == s;
    } else {
      assert pad[0] in pad && (pad + s)[1..] == pad[1..] + s;
      StripLeftOfPadded(pad[1..], s);
    }
  }

  lemma {:induction false} StripRightOfPadded(s: string, pad: string)
    requires Blank(pad)
    ensures StripRight(s + pad) == StripRight(s)
  {
    if pad == "" {
      assert s + pad == s;
    } else {
      var n := |pad| - 1;
      assert pad[n] in pad && (s + pad)[..|s + pad| - 1] == s + pad[..n];
      StripRightOfPadded(s, pad[..n]);
    }
  }

  lemma {:induction false} StripLeftCut(s: string) returns (pad: string)
    ensures Blank(pad) && s == pad + StripLeft(s)
  {
    if s != "" && IsSpace(s[0]) {
      var first, kept := s[0], StripLeft(s);
      var rest := StripLeftCut(s[1..]);
      pad := [first] + rest;
      assert s == [first] + s[1..] == [first] + (rest + kept) == pad + kept;
    } else {
      pad := "";
      assert s == "" + s;
    }
  }

  lemma {:induction false} StripRightCut(s: string) returns (pad: string)
    ensures Blank(pad) && s == StripRight(s) + pad
  {
    var n := |s| - 1;
    if s != "" && IsSpace(s[n]) {
      var last, kept := s[n], StripRight(s);
      var rest := StripRightCut(s[..n]);
      pad := rest + [last];
      assert s == s[..n] + [last] == (kept + rest) + [last] == kept + pad;
      assert Blank(pad);
    } else {
      pad := "";
      assert s == s + "";
    }
  }

  /** Only white space goes, and all that surrounds. */
  lemma StripCutsOnlyBlanks(s: string) returns (before: string, after: string)
    ensures Blank(before) && Blank(after) && s == before + Strip(s) + after
  {
    before := StripLeftCut(s);
    after := StripRightCut(StripLeft(s));
  }

  lemma {:induction false} StripLeftAppend(s: string, pad: string)
    requires StripLeft(s) != ""
    ensures StripLeft(s + pad) == StripLeft(s) + pad
  {
    if s != "" && IsSpace(s[0]) {
      assert (s + pad)[1..] == s[1..] + pad;
      StripLeftAppend(s[1..], pad);
    }
  }

  lemma {:induction false} BlankStripsToNothing(s: string)
    requires Blank(s)
    ensures StripLeft(s) == ""
  {
    if s != "" {
      assert s[0] in s;
      BlankStripsToNothing(s[1..]);
    }
  }

  /** Padding does not matter. */
  lemma StripOfPadded(before: string, s: string, after: string)
    requires Blank(before) && Blank(after)
    ensures Strip(before + s + after) == Strip(s)
  {
    assert before + s + after == before + (s + after);
    StripLeftOfPadded(before, s + after);
    if StripLeft(s) != "" {
      StripLeftAppend(s, after);
      StripRightOfPadded(StripLeft(s), after);
    } else {
      var pad := StripLeftCut(s);
      assert s == pad;
      BlankStripsToNothing(s + after);
    }
  }

  /** Letter case does not matter to `Upper`, which leaves no small letter. */
  lemma UpperForgetsCase(s: string)
    ensures Upper(Lower(s)) == Upper(s)
    ensures forall c | c in Upper(s) :: !('a' <= c <= 'z')
  {
  }

  /** Nor to `Lower`, which leaves no capital one. */
  lemma LowerForgetsCase(s: string)
    ensures Lower(Upper(s)) == Lower(s)
    ensures forall c | c in Lower(s) :: !('A' <= c <= 'Z')
  {
  }

  lemma LowerJoins(a: string, b: string)
    ensures Lower(a + b) == Lower(a) + Lower(b)
  {
  }
}
