/** The few string operations the program relies on. */
module Text {

  /** The characters that `strip` removes. */
  predicate IsSpace(c: char) {
    var n := c as int;
    || 0x09 <= n <= 0x0d || 0x1c <= n <= 0x20 || n == 0x85 || n == 0xa0 || n == 0x1680
    || 0x2000 <= n <= 0x200a || n == 0x2028 || n == 0x2029 || n == 0x202f || n == 0x205f || n == 0x3000
  }

  function StripLeft(s: string): string {
    if s != [] && IsSpace(s[0]) then StripLeft(s[1..]) else s
  }

  function StripRight(s: string): string {
    if s != [] && IsSpace(s[|s| - 1]) then StripRight(s[..|s| - 1]) else s
  }

  function Strip(s: string): string {
    StripRight(StripLeft(s))
  }

  /** No space at either end. */
  predicate Stripped(s: string) {
    s == [] || (!IsSpace(s[0]) && !IsSpace(s[|s| - 1]))
  }

  lemma {:induction false} StripRightKeepsHead(s: string)
    requires s == [] || !IsSpace(s[0])
    ensures Stripped(StripRight(s))
  {
    if s != [] && IsSpace(s[|s| - 1]) {
      StripRightKeepsHead(s[..|s| - 1]);
    }
  }

  lemma {:induction false} StripLeftHead(s: string)
    ensures StripLeft(s) == [] || !IsSpace(StripLeft(s)[0])
  {
    if s != [] && IsSpace(s[0]) {
      StripLeftHead(s[1..]);
    }
  }

  /** `Strip` returns a stripped string, and leaves exactly the stripped strings alone. */
  lemma StripLaw(s: string)
    ensures Stripped(Strip(s))
    ensures Strip(s) == s <==> Stripped(s)
    ensures Strip(Strip(s)) == Strip(s)
  {
    StripLeftHead(s);
    StripRightKeepsHead(StripLeft(s));
  }

  /** Nothing but spaces. */
  predicate Blank(s: string) {
    forall c <- s :: IsSpace(c)
  }

  lemma {:induction false} StripLeftEmptyIff(s: string)
    ensures StripLeft(s) == [] <==> Blank(s)
  {
    if s != [] {
      assert s == [s[0]] + s[1..];
      StripLeftEmptyIff(s[1..]);
    }
  }

  lemma StripEmptyIff(s: string)
    ensures Strip(s) == [] <==> Blank(s)
  {
    StripLeftEmptyIff(s);
    StripLeftHead(s);
    if StripLeft(s) != [] {
      StripRightKeepsSome(StripLeft(s));
    }
  }

  lemma {:induction false} StripRightKeepsSome(s: string)
    requires s != [] && !IsSpace(s[0])
    ensures StripRight(s) != []
  {
    if IsSpace(s[|s| - 1]) {
      StripRightKeepsSome(s[..|s| - 1]);
    }
  }

  lemma {:induction false} StripLeftCuts(s: string) returns (head: string)
    ensures Blank(head) && s == head + StripLeft(s)
  {
    head := "";
    if s != [] && IsSpace(s[0]) {
      var more := StripLeftCuts(s[1..]);
      head := [s[0]] + more;
    }
  }

  lemma {:induction false} StripRightCuts(s: string) returns (tail: string)
    ensures Blank(tail) && s == StripRight(s) + tail
  {
    tail := "";
    if s != [] && IsSpace(s[|s| - 1]) {
      var more := StripRightCuts(s[..|s| - 1]);
      tail := more + [s[|s| - 1]];
    }
  }

  /** `Strip` cuts spaces off both ends and nothing else. */
  lemma StripCuts(s: string) returns (head: string, tail: string)
    ensures Blank(head) && Blank(tail) && s == head + Strip(s) + tail
  {
    head := StripLeftCuts(s);
    tail := StripRightCuts(StripLeft(s));
  }

  predicate StartsWith(s: string, prefix: string) { prefix <= s }

  predicate EndsWith(s: string, suffix: string) { |s| >= |suffix| && s[|s| - |suffix|..] == suffix }

  /** Upper case of the ASCII letters. */
  function UpperChar(c: char): char {
    if 'a' <= c <= 'z' then c - 'a' + 'A' else c
  }

  function LowerChar(c: char): char {
    if 'A' <= c <= 'Z' then c - 'A' + 'a' else c
  }

  function Upper(s: string): (r: string)
    ensures |r| == |s|
    ensures forall i :: 0 <= i < |s| ==> r[i] == UpperChar(s[i])
  {
    seq(|s|, i requires 0 <= i < |s| => UpperChar(s[i]))
  }

  function Lower(s: string): (r: string)
    ensures |r| == |s|
    ensures forall i :: 0 <= i < |s| ==> r[i] == LowerChar(s[i])
  {
    seq(|s|, i requires 0 <= i < |s| => LowerChar(s[i]))
  }

  /** The letters of the two cases correspond, and every other character is left alone. */
  lemma CasesAre(c: char, k: nat)
    requires k < 26
    ensures UpperChar((97 + k) as char) == (65 + k) as char && LowerChar((65 + k) as char) == (97 + k) as char
    ensures !(97 <= c as int < 123) ==> UpperChar(c) == c
    ensures !(65 <= c as int < 91) ==> LowerChar(c) == c
  {
  }

  lemma UpperStripped(s: string)
    requires Stripped(s)
    ensures Stripped(Upper(s)) && Upper(Upper(s)) == Upper(s)
  {
  }
}
