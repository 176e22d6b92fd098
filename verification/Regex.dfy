/** The fragment of regular expressions that the operator's patterns use, with
    its usual meaning on whole strings. */
module Regex {

  datatype Regex =
    | Epsilon
    | Class(chars: set<char>)
    | AnyChar
    | Cat(first: Regex, second: Regex)
    | Alt(left: Regex, right: Regex)
    | Star(body: Regex)

  /** Does `r` match the whole of `s`? */
  ghost predicate Matches(r: Regex, s: string)
    decreases r, |s|
  {
    match r
    case Epsilon => s == ""
    case Class(chars) => |s| == 1 && s[0] in chars
    case AnyChar => |s| == 1
    case Cat(first, second) => exists i | 0 <= i <= |s| :: Matches(first, s[..i]) && Matches(second, s[i..])
    case Alt(left, right) => Matches(left, s) || Matches(right, s)
    case Star(body) => s == "" || exists i | 0 < i <= |s| :: Matches(body, s[..i]) && Matches(r, s[i..])
  }

  function Literal(c: char): Regex
  {
    Class({c})
  }

  /** r{n} */
  function Repeat(r: Regex, n: nat): Regex
  {
    if n == 0 then Epsilon else Cat(r, Repeat(r, n - 1))
  }

  /** A name written into a pattern unescaped: a dot matches any character. */
  function Unescaped(name: string): Regex
  {
    if name == "" then Epsilon
    else Cat(if name[0] == '.' then AnyChar else Literal(name[0]), Unescaped(name[1..]))
  }

  function OneOf(words: seq<string>): Regex
    requires words != []
  {
    if |words| == 1 then Unescaped(words[0]) else Alt(Unescaped(words[0]), OneOf(words[1..]))
  }

  lemma {:induction false} RepeatClass(chars: set<char>, n: nat, s: string)
    ensures Matches(Repeat(Class(chars), n), s) <==> |s| == n && forall i | 0 <= i < |s| :: s[i] in chars
    decreases n
  {
    if n > 0 {
      var rest := Repeat(Class(chars), n - 1);
      forall i | 0 <= i <= |s|
        ensures Matches(rest, s[i..]) <==> |s| - i == n - 1 && forall j | i <= j < |s| :: s[j] in chars
      {
        RepeatClass(chars, n - 1, s[i..]);
        assert forall j | i <= j < |s| :: s[j] == s[i..][j - i];
      }
      if |s| == n && forall i | 0 <= i < |s| :: s[i] in chars {
        assert Matches(Class(chars), s[..1]) && Matches(rest, s[1..]);
      }
      assert forall i | 0 <= i <= |s| && Matches(Class(chars), s[..i]) :: i == 1 && s[..i][0] == s[0];
    }
  }

  /** Equal, up to the characters under the name's dots. */
  predicate DotLike(name: string, s: string)
  {
    |s| == |name| && forall i | 0 <= i < |name| :: name[i] == '.' || s[i] == name[i]
  }

  /** What an unescaped name matches. */
  lemma {:induction false} UnescapedMatches(name: string, s: string)
    ensures Matches(Unescaped(name), s) <==> DotLike(name, s)
    decreases |name|
  {
    if name != "" {
      var first, rest := Unescaped(name).first, Unescaped(name[1..]);
      forall i | 0 <= i <= |s|
        ensures Matches(first, s[..i]) <==> i == 1 && (name[0] == '.' || s[0] == name[0])
      {
        assert |s[..i]| == i;
      }
      if s != "" {
        UnescapedMatches(name[1..], s[1..]);
        assert Matches(Unescaped(name), s) <==> Matches(first, s[..1]) && Matches(rest, s[1..]);
        assert forall j | 1 <= j < |name| :: name[j] == name[1..][j - 1];
        assert |s| == |name| ==> forall j | 1 <= j < |name| :: s[j] == s[1..][j - 1];
      }
    }
  }

  lemma DotFreeIsLiteral(name: string, s: string)
    requires '.' !in name
    ensures Matches(Unescaped(name), s) <==> s == name
    ensures DotLike(name, s) <==> s == name
  {
    UnescapedMatches(name, s);
  }

  lemma {:induction false} OneOfMatches(words: seq<string>, s: string)
    requires words != [] && forall w | w in words :: '.' !in w
    ensures Matches(OneOf(words), s) <==> s in words
    decreases |words|
  {
    DotFreeIsLiteral(words[0], s);
    if |words| > 1 {
      OneOfMatches(words[1..], s);
      assert words == [words[0]] + words[1..];
    }
  }

  lemma {:induction false} StarAnyMatches(s: string)
    ensures Matches(Star(AnyChar), s)
    decreases |s|
  {
    if s != "" {
      StarAnyMatches(s[1..]);
      assert Matches(AnyChar, s[..1]);
    }
  }

  /** One of some words, then something else. */
  lemma WordsThen(words: Regex, list: seq<string>, rest: Regex, s: string)
    requires forall t :: Matches(words, t) <==> t in list
    ensures Matches(Cat(words, rest), s) <==> exists w :: w in list && w <= s && Matches(rest, s[|w|..])
  {
    if Matches(Cat(words, rest), s) {
      var i :| 0 <= i <= |s| && Matches(words, s[..i]) && Matches(rest, s[i..]);
      assert s[..i] in list && s[..i] <= s;
    }
    if w :| w in list && w <= s && Matches(rest, s[|w|..]) {
      assert s[..|w|] == w;
    }
  }

  /** Something of a fixed length, then something else. */
  lemma FixedLengthThen(head: Regex, n: nat, tail: Regex, s: string)
    requires forall t :: Matches(head, t) ==> |t| == n
    ensures Matches(Cat(head, tail), s) <==> n <= |s| && Matches(head, s[..n]) && Matches(tail, s[n..])
  {
    assert forall i | 0 <= i <= |s| && Matches(head, s[..i]) :: i == n;
  }
}
