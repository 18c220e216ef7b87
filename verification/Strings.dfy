/** The string operations the parsers use, on ASCII. */
module Strings {

  /** Space, and the five control characters from tab to carriage return. */
  predicate IsSpace(c: char) {
    c == ' ' || 9 <= c as int <= 13
  }

  function TrimLeft(s: string): string {
    if s != "" && IsSpace(s[0]) then TrimLeft(s[1..]) else s
  }

  function TrimRight(s: string): string {
    if s != "" && IsSpace(s[|s| - 1]) then TrimRight(s[..|s| - 1]) else s
  }

  function Trim(s: string): string {
    TrimRight(TrimLeft(s))
  }

  function Lower(s: string): string {
    seq(|s|, i requires 0 <= i < |s| =>
      if 'A' <= s[i] <= 'Z' then (s[i] as int + 32) as char else s[i])
  }

  predicate Contains(s: string, part: string) {
    part <= s || (s != "" && Contains(s[1..], part))
  }

  predicate HasSuffix(s: string, part: string) {
    |part| <= |s| && s[|s| - |part|..] == part
  }

  /** Position of the first `c`, or the length if there is none. */
  function IndexOf(s: string, c: char): (i: nat)
    ensures i <= |s| && (i < |s| ==> s[i] == c) && c !in s[..i]
  {
    if s == "" || s[0] == c then 0
    else
      var i := 1 + IndexOf(s[1..], c);
      assert s[..i] == [s[0]] + s[1..][..i - 1];
      i
  }

  /** White space alone. */
  predicate Blank(s: string) {
    forall i :: 0 <= i < |s| ==> s[i] == ' ' || 9 <= s[i] as int <= 13
  }

  /** Trimming takes white space off the left end, as much as there is, and nothing else. */
  lemma {:induction false} TrimLeftTakesBlanks(s: string)
    ensures |TrimLeft(s)| <= |s| && s[|s| - |TrimLeft(s)|..] == TrimLeft(s) && Blank(s[..|s| - |TrimLeft(s)|])
    ensures TrimLeft(s) != "" ==> !Blank([TrimLeft(s)[0]])
  {
    if s != "" && IsSpace(s[0]) {
      TrimLeftTakesBlanks(s[1..]);
      var k := |s| - |TrimLeft(s)|;
      assert s[..k] == [s[0]] + s[1..][..k - 1];
    } else if s != "" {
      assert [s[0]][0] == s[0];
    }
  }

  lemma {:induction false} TrimRightTakesBlanks(s: string)
    ensures TrimRight(s) <= s && Blank(s[|TrimRight(s)|..])
    ensures TrimRight(s) != "" ==> !Blank([TrimRight(s)[|TrimRight(s)| - 1]])
  {
    if s != "" && IsSpace(s[|s| - 1]) {
      TrimRightTakesBlanks(s[..|s| - 1]);
      var k := |TrimRight(s)|;
      assert s[k..] == s[..|s| - 1][k..] + [s[|s| - 1]];
    } else if s != "" {
      assert [s[|s| - 1]][0] == s[|s| - 1];
    }
  }

  /** A text is in another if it stands somewhere in it. */
  lemma {:induction false} ContainsSomewhere(s: string, part: string)
    ensures Contains(s, part) <==> exists i, j :: 0 <= i <= j <= |s| && s[i..j] == part
  {
    if part <= s {
      assert s[0..|part|] == part;
    } else if s != "" {
      ContainsSomewhere(s[1..], part);
      if i, j :| 0 <= i <= j <= |s| && s[i..j] == part {
        assert !(part <= s) && s[0..j] <= s;
        assert i != 0;
        assert s[1..][i - 1..j - 1] == part;
      }
      if i, j :| 0 <= i <= j <= |s| - 1 && s[1..][i..j] == part {
        assert s[i + 1..j + 1] == part;
      }
    } else {
      assert forall i, j :: 0 <= i <= j <= |s| && s[i..j] == part ==> part == "";
    }
  }

  /** Lower case, letter by letter. */
  lemma LowerLetters(s: string)
    ensures |Lower(s)| == |s|
    ensures forall i :: 0 <= i < |s| ==>
              if 'A' <= s[i] <= 'Z' then Lower(s)[i] as int == s[i] as int + 32 else Lower(s)[i] == s[i]
  {
  }

  lemma {:induction false} TrimLeftStops(s: string, c: char, rest: string)
    requires !IsSpace(c)
    ensures TrimLeft(s + [c] + rest) == TrimLeft(s) + [c] + rest
  {
    if s != "" && IsSpace(s[0]) {
      TrimLeftStops(s[1..], c, rest);
      assert (s + [c] + rest)[1..] == s[1..] + [c] + rest;
    }
  }

  lemma {:induction false} TrimRightStops(s: string, c: char, rest: string)
    requires !IsSpace(c)
    ensures TrimRight(s + [c] + rest) == s + [c] + TrimRight(rest)
  {
    var all := s + [c] + rest;
    if rest == "" {
      assert all == s + [c];
    } else if IsSpace(rest[|rest| - 1]) {
      TrimRightStops(s, c, rest[..|rest| - 1]);
      assert all[..|all| - 1] == s + [c] + rest[..|rest| - 1];
    }
  }

  lemma {:induction false} TrimLeftAgain(s: string)
    ensures TrimLeft(TrimLeft(s)) == TrimLeft(s)
  {
    if s != "" && IsSpace(s[0]) { TrimLeftAgain(s[1..]); }
  }

  /** Trimming on the right before trimming on both sides changes nothing. */
  lemma {:induction false} TrimAfterRight(s: string)
    ensures Trim(TrimRight(s)) == Trim(s)
  {
    if s != "" && IsSpace(s[|s| - 1]) {
      var init := s[..|s| - 1];
      TrimAfterRight(init);
      TrimLeftBlankEnd(init, s[|s| - 1]);
      assert s == init + [s[|s| - 1]];
    }
  }

  lemma {:induction false} TrimLeftBlankEnd(s: string, c: char)
    requires IsSpace(c)
    ensures Trim(s + [c]) == Trim(s)
  {
    if s == "" {
      assert s + [c] == [c] && [c][1..] == "";
    } else if IsSpace(s[0]) {
      TrimLeftBlankEnd(s[1..], c);
      assert (s + [c])[1..] == s[1..] + [c];
    } else {
      assert TrimLeft(s + [c]) == s + [c];
      assert (s + [c])[..|s|] == s;
    }
  }

  lemma {:induction false} IndexOfFirst(s: string, c: char, rest: string)
    requires c !in s
    ensures IndexOf(s + [c] + rest, c) == |s|
  {
    if s != "" {
      IndexOfFirst(s[1..], c, rest);
      assert (s + [c] + rest)[1..] == s[1..] + [c] + rest;
    }
  }
}
