/** Facts about strings glued together with a separator. */
module Text {

  /** A separator that neither head contains is found at the same place. */
  lemma HeadLength(c: char, head1: string, rest1: string, head2: string, rest2: string)
    requires c !in head1 && c !in head2
    requires head1 + [c] + rest1 == head2 + [c] + rest2
    ensures |head1| <= |head2|
  {
    var whole := head1 + [c] + rest1;
    assert whole[|head2|] == c;
    assert forall i | 0 <= i < |head1| :: whole[i] == head1[i];
  }

  lemma CutFirst(c: char, head1: string, rest1: string, head2: string, rest2: string)
    requires c !in head1 && c !in head2
    requires head1 + [c] + rest1 == head2 + [c] + rest2
    ensures head1 == head2 && rest1 == rest2
  {
    HeadLength(c, head1, rest1, head2, rest2);
    HeadLength(c, head2, rest2, head1, rest1);
    var whole := head1 + [c] + rest1;
    assert whole[..|head1|] == head1 && whole[..|head2|] == head2;
    assert whole[|head1| + 1..] == rest1 && whole[|head2| + 1..] == rest2;
  }

  /** The mirror image: a separator that neither tail contains. */
  lemma TailLength(c: char, init1: string, tail1: string, init2: string, tail2: string)
    requires c !in tail1 && c !in tail2
    requires init1 + [c] + tail1 == init2 + [c] + tail2
    ensures |tail1| <= |tail2|
  {
    var whole := init1 + [c] + tail1;
    assert whole[|init2|] == c;
    assert forall i | |init1| < i < |whole| :: whole[i] == tail1[i - |init1| - 1];
  }

  lemma CutLast(c: char, init1: string, tail1: string, init2: string, tail2: string)
    requires c !in tail1 && c !in tail2
    requires init1 + [c] + tail1 == init2 + [c] + tail2
    ensures init1 == init2 && tail1 == tail2
  {
    TailLength(c, init1, tail1, init2, tail2);
    TailLength(c, init2, tail2, init1, tail1);
    var whole := init1 + [c] + tail1;
    assert whole[..|init1|] == init1 && whole[..|init2|] == init2;
    assert whole[|init1| + 1..] == tail1 && whole[|init2| + 1..] == tail2;
  }

  /** Equal strings with suffixes of equal length have equal suffixes. */
  lemma CutSuffix(a: string, s: string, b: string, t: string)
    requires |s| == |t|
    requires a + s == b + t
    ensures a == b && s == t
  {
    assert (a + s)[..|a|] == a && (b + t)[..|b|] == b;
    assert (a + s)[|a|..] == s && (b + t)[|b|..] == t;
  }

  lemma CutPrefix(p: string, a: string, b: string)
    requires p + a == p + b
    ensures a == b
  {
    assert (p + a)[|p|..] == a && (p + b)[|p|..] == b;
  }

  /** Suffixes that end in different characters never meet. */
  lemma LastCharacter(a: string, s: string, b: string, t: string)
    requires s != "" && t != "" && s[|s| - 1] != t[|t| - 1]
    ensures a + s != b + t
  {
    assert (a + s)[|a + s| - 1] == s[|s| - 1];
    assert (b + t)[|b + t| - 1] == t[|t| - 1];
  }
}
