/** The payout address pattern: 0x followed by exactly forty hex digits. */
module Address {
  import opened Regex

  const HEX_DIGITS: set<char> := {
    '0', '1', '2', '3', '4', '5', '6', '7', '8', '9',
    'a', 'b', 'c', 'd', 'e', 'f', 'A', 'B', 'C', 'D', 'E', 'F'}

  const ADDRESS_PATTERN: Regex :=
    Cat(Literal('0'), Cat(Literal('x'), Repeat(Class(HEX_DIGITS), 40)))

  predicate IsValidAddress(s: string)
  {
    |s| == 42 && s[..2] == "0x" && forall i | 2 <= i < 42 :: s[i] in HEX_DIGITS
  }

  /** One literal character in front of a pattern. */
  lemma LiteralThen(c: char, rest: Regex, s: string)
    ensures Matches(Cat(Literal(c), rest), s) <==> s != "" && s[0] == c && Matches(rest, s[1..])
  {
    assert forall i | 0 <= i <= |s| && Matches(Literal(c), s[..i]) :: i == 1 && s[..i][0] == s[0];
    if s != "" && s[0] == c {
      assert Matches(Literal(c), s[..1]);
    }
  }

  /** The predicate is the pattern: nothing else matches, and no surrounding text
      or trailing newline is tolerated. */
  lemma ValidIffPatternMatches(s: string)
    ensures IsValidAddress(s) <==> Matches(ADDRESS_PATTERN, s)
  {
    ZeroThenX(Repeat(Class(HEX_DIGITS), 40), s);
    if |s| >= 2 {
      TailOfClass(HEX_DIGITS, 40, s);
    }
  }

  lemma ZeroThenX(rest: Regex, s: string)
    ensures Matches(Cat(Literal('0'), Cat(Literal('x'), rest)), s) <==>
              |s| >= 2 && s[..2] == "0x" && Matches(rest, s[2..])
  {
    LiteralThen('0', Cat(Literal('x'), rest), s);
    if s != "" {
      LiteralThen('x', rest, s[1..]);
    }
    if |s| >= 2 {
      assert s[1..][1..] == s[2..];
    }
  }

  lemma TailOfClass(chars: set<char>, n: nat, s: string)
    requires |s| >= 2
    ensures Matches(Repeat(Class(chars), n), s[2..]) <==> |s| == n + 2 && forall i | 2 <= i < |s| :: s[i] in chars
  {
    RepeatClass(chars, n, s[2..]);
    assert forall i | 2 <= i < |s| :: s[i] == s[2..][i - 2];
    assert forall i | 0 <= i < |s[2..]| :: s[2..][i] == s[i + 2];
  }
}
