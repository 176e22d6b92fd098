/** Which pods the metrics and alert expressions of a Shop range over. */
module MetricsScope {
  import opened Regex
  import opened Names

  const BACKENDS: seq<string> := ["auth", "order", "payment", "inventory"]

  /** Service names carry no dash and no dot. */
  ghost predicate PlainWords(words: seq<string>)
  {
    words != [] && forall w | w in words :: '-' !in w && '.' !in w
  }

  lemma BackendsArePlain()
    ensures PlainWords(BACKENDS)
  {
  }

  /** ^shop-<name>-(s1|s2|...)-.* , matched against whole pod names. */
  function PodPattern(shop: string, services: seq<string>): Regex
    requires services != []
  {
    Cat(Unescaped(ResourceName(shop) + "-"), Cat(OneOf(services), DASH_AND_MORE))
  }

  /** The pods of a Shop: those of a Deployment, and those of a migration Job, whose name
      lacks the common stem. Both carry a generated suffix. Database pods are named like
      those of a Deployment, with the database for the service. */
  datatype Pod =
    | WorkloadPod(shop: string, service: string, suffix: string)
    | JobPod(shop: string, service: string, hash: string, suffix: string)

  function PodName(pod: Pod): string
  {
    match pod
    case WorkloadPod(shop, service, suffix) => ServiceResourceName(shop, service) + "-" + suffix
    case JobPod(shop, service, hash, suffix) => MigrationName(shop, service, hash) + "-" + suffix
  }

  /** What stands before the service in a pod's name, and what after it. */
  function Front(pod: Pod): string
  {
    if pod.JobPod? then pod.shop else ResourceName(pod.shop)
  }

  function Tail(pod: Pod): string
  {
    if pod.JobPod? then "migrate-" + pod.hash + "-" + pod.suffix else pod.suffix
  }

  lemma PodNameParts(pod: Pod)
    ensures PodName(pod) == Front(pod) + "-" + pod.service + "-" + Tail(pod)
  {
    if pod.JobPod? {
      var head := pod.shop + "-" + pod.service;
      assert head + "-migrate-" + pod.hash + "-" + pod.suffix ==
          head + "-" + ("migrate-" + pod.hash + "-" + pod.suffix);
    }
  }

  ghost predicate InScope(services: seq<string>, shop: string, pod: Pod)
    requires services != []
  {
    Matches(PodPattern(shop, services), PodName(pod))
  }

  /** Does `word` occur in `s` as a whole dash-separated segment? */
  ghost predicate HasSegment(s: string, word: string)
  {
    exists i :: SegmentAt(s, word, i)
  }

  predicate SegmentAt(s: string, word: string, i: int)
  {
    && 0 <= i <= i + |word| <= |s|
    && s[i..i + |word|] == word
    && (i == 0 || s[i - 1] == '-')
    && (i + |word| == |s| || s[i + |word|] == '-')
  }

  const DASH_AND_MORE: Regex := Cat(Literal('-'), Star(AnyChar))

  lemma DashAndMore(s: string)
    ensures Matches(DASH_AND_MORE, s) <==> s != "" && s[0] == '-'
  {
    if s != "" && s[0] == '-' {
      StarAnyMatches(s[1..]);
      assert Matches(Literal('-'), s[..1]);
    }
    assert forall i | 0 <= i <= |s| && Matches(Literal('-'), s[..i]) :: i == 1 && s[..i][0] == s[0];
  }

  /** What follows the Shop's own name in a pod name that the pattern accepts. */
  ghost predicate StartsWithOne(list: seq<string>, s: string)
  {
    exists word :: word in list && word + "-" <= s
  }

  lemma DashAfter(word: string, s: string)
    ensures word <= s && Matches(DASH_AND_MORE, s[|word|..]) <==> word + "-" <= s
  {
    if word <= s {
      DashAndMore(s[|word|..]);
    }
  }

  lemma WordAndMore(words: Regex, list: seq<string>, s: string)
    requires forall t :: Matches(words, t) <==> t in list
    ensures Matches(Cat(words, DASH_AND_MORE), s) <==> StartsWithOne(list, s)
  {
    WordsThen(words, list, DASH_AND_MORE, s);
    forall word
      ensures word <= s && Matches(DASH_AND_MORE, s[|word|..]) <==> word + "-" <= s
    {
      DashAfter(word, s);
    }
  }

  /** The whole pattern: the Shop's name, dots standing for any character, and then
      a backend service. */
  lemma PatternSplits(services: seq<string>, shop: string, head: string, pod: string)
    requires PlainWords(services) && head == ResourceName(shop) + "-"
    ensures Matches(PodPattern(shop, services), pod) <==>
              |head| <= |pod| && Matches(Unescaped(head), pod[..|head|]) && StartsWithOne(services, pod[|head|..])
  {
    var words := OneOf(services);
    forall t
      ensures Matches(Unescaped(head), t) ==> |t| == |head|
    {
      UnescapedMatches(head, t);
    }
    FixedLengthThen(Unescaped(head), |head|, Cat(words, DASH_AND_MORE), pod);
    forall t
      ensures Matches(words, t) <==> t in services
    {
      OneOfMatches(services, t);
    }
    if |head| <= |pod| {
      WordAndMore(words, services, pod[|head|..]);
    }
  }

  /** Does `s` begin with something like `p`? */
  predicate DotPrefix(p: string, s: string)
  {
    |p| <= |s| && DotLike(p, s[..|p|])
  }

  lemma DotFreePrefix(p: string, s: string)
    requires '.' !in p
    ensures DotPrefix(p, s) <==> p <= s
  {
    if |p| <= |s| {
      DotFreeIsLiteral(p, s[..|p|]);
    }
  }

  lemma DotLikeConcat(a: string, b: string, s: string)
    requires |s| == |a| + |b|
    ensures DotLike(a + b, s) <==> DotLike(a, s[..|a|]) && DotLike(b, s[|a|..])
  {
    var p := a + b;
    assert forall i | 0 <= i < |a| :: p[i] == a[i] && s[..|a|][i] == s[i];
    assert forall i | 0 <= i < |b| :: p[|a| + i] == b[i] && s[|a|..][i] == s[|a| + i];
    if DotLike(a, s[..|a|]) && DotLike(b, s[|a|..]) {
      forall i | 0 <= i < |p|
        ensures p[i] == '.' || s[i] == p[i]
      {
        if i >= |a| { assert p[i] == b[i - |a|] && s[i] == s[|a|..][i - |a|]; }
      }
    }
  }

  lemma DotPrefixConcat(a: string, b: string, s: string)
    ensures DotPrefix(a + b, s) <==> |a| <= |s| && DotLike(a, s[..|a|]) && DotPrefix(b, s[|a|..])
  {
    if |a| + |b| <= |s| {
      var t := s[..|a| + |b|];
      DotLikeConcat(a, b, t);
      assert t[..|a|] == s[..|a|] && t[|a|..] == s[|a|..][..|b|];
    }
  }

  /** The pods the pattern reaches, for every Shop name. */
  lemma PatternReaches(services: seq<string>, shop: string, pod: string)
    requires PlainWords(services)
    ensures Matches(PodPattern(shop, services), pod) <==>
              exists word :: word in services && DotPrefix(ResourceName(shop) + "-" + word + "-", pod)
  {
    var head := ResourceName(shop) + "-";
    PatternSplits(services, shop, head, pod);
    if |head| <= |pod| {
      UnescapedMatches(head, pod[..|head|]);
    }
    forall word | word in services
      ensures DotPrefix(head + word + "-", pod) <==>
                |head| <= |pod| && DotLike(head, pod[..|head|]) && word + "-" <= pod[|head|..]
    {
      assert head + word + "-" == head + (word + "-");
      DotPrefixConcat(head, word + "-", pod);
      if |head| <= |pod| {
        DotFreePrefix(word + "-", pod[|head|..]);
      }
    }
  }

  // ---- Which pods those are ----

  ghost predicate NoServiceSegment(services: seq<string>, suffix: string)
  {
    forall word | word in services :: !HasSegment(suffix, word)
  }

  /** Service names have no dash, and what is generated contains no service name. */
  ghost predicate Tidy(services: seq<string>, pod: Pod)
  {
    '-' !in pod.service && NoServiceSegment(services, Tail(pod))
  }

  /** The literal end of the prefix and where it lies in the pod's name. */
  lemma LiteralEnd(x: string, word: string, t: string)
    requires '.' !in word && DotPrefix(x + "-" + word + "-", t)
    ensures DotLike(x, t[..|x|])
    ensures t[|x|..|x| + 1] == "-" && t[|x| + 1..|x| + 1 + |word|] == word && t[|x| + 1 + |word|] == '-'
  {
    var rest := "-" + word + "-";
    assert x + "-" + word + "-" == x + rest;
    DotPrefixConcat(x, rest, t);
    DotFreePrefix(rest, t[|x|..]);
    assert rest == t[|x|..][..|rest|];
    assert forall i | 0 <= i < |rest| :: rest[i] == t[|x| + i];
    assert forall i | 0 <= i < |word| :: rest[1 + i] == word[i];
  }

  /** A prefix that reaches past Y's own name ends exactly at a segment. */
  lemma PrefixWithinPod(x: string, word: string, y: string, service: string, suffix: string)
    requires '-' !in word && '.' !in word && '-' !in service
    requires |x| + |word| + 2 > |y| + 1
    requires DotPrefix(x + "-" + word + "-", y + "-" + service + "-" + suffix)
    ensures (DotLike(x, y) && word == service) || HasSegment(suffix, word)
  {
    var t := y + "-" + service + "-" + suffix;
    var start, from, end := |y| + 1 + |service| + 1, |x| + 1, |x| + 1 + |word|;
    LiteralEnd(x, word, t);
    assert t[start..] == suffix && t[start - 1] == '-' && t[|y|] == '-' && t[..|y|] == y;
    assert t[|y| + 1..start - 1] == service;
    assert t[from - 1] == '-' && t[end] == '-' && t[from..end] == word;
    assert forall i | |y| + 1 <= i < start - 1 :: t[i] == service[i - |y| - 1];
    assert forall i | from <= i < end :: t[i] == word[i - from];
    assert end >= start - 1;
    if end == start - 1 {
      assert from - 1 == |y|;
    } else {
      var i := from - start;
      assert i >= 0;
      assert suffix[i..i + |word|] == word;
      assert i + |word| < |suffix| ==> suffix[i + |word|] == t[end];
      assert i > 0 ==> suffix[i - 1] == t[from - 1];
      assert SegmentAt(suffix, word, i);
    }
  }

  /** Is Y's name like X-s, or does it start with something like X-s-, for one of the
      services s? */
  ghost predicate DotShadowed(services: seq<string>, x: string, y: string)
  {
    exists word :: word in services && (DotLike(x + "-" + word, y) || DotPrefix(x + "-" + word + "-", y))
  }

  lemma ScopeForWord(x: string, word: string, y: string, service: string, suffix: string)
    requires '-' !in word && '.' !in word && '-' !in service && !HasSegment(suffix, word)
    ensures DotPrefix(x + "-" + word + "-", y + "-" + service + "-" + suffix) <==>
              (DotLike(x, y) && word == service) || DotLike(x + "-" + word, y) || DotPrefix(x + "-" + word + "-", y)
  {
    var p, t := x + "-" + word + "-", y + "-" + service + "-" + suffix;
    if |p| > |y| + 1 {
      if DotPrefix(p, t) {
        PrefixWithinPod(x, word, y, service, suffix);
      }
      if DotLike(x, y) && word == service {
        SamePod(x, word, y, suffix);
      }
    } else {
      ShortPrefix(x + "-" + word, y, service + "-" + suffix, p, t);
    }
  }

  lemma SamePod(x: string, word: string, y: string, suffix: string)
    requires DotLike(x, y) && '.' !in word
    ensures DotPrefix(x + "-" + word + "-", y + "-" + word + "-" + suffix)
  {
    var rest, t := "-" + word + "-", y + "-" + word + "-" + suffix;
    assert x + "-" + word + "-" == x + rest && t == y + (rest + suffix);
    DotPrefixConcat(x, rest, t);
    assert t[..|x|] == y && t[|x|..] == rest + suffix;
    DotFreePrefix(rest, t[|x|..]);
  }

  /** A prefix that ends within Y's name or at the dash after it. */
  lemma ShortPrefix(stem: string, y: string, more: string, p: string, t: string)
    requires p == stem + "-" && |p| <= |y| + 1 && |t| == |y| + 1 + |more| && t == y + "-" + more
    ensures DotPrefix(p, t) <==> DotLike(stem, y) || DotPrefix(p, y)
  {
    if |p| <= |y| {
      assert t[..|p|] == y[..|p|];
    } else {
      assert t[..|p|] == y + "-";
      DotLikeConcat(stem, "-", y + "-");
      assert (y + "-")[..|stem|] == y && (y + "-")[|stem|..] == "-";
    }
  }

  /** The scope, for all Shop names and all pods: Shop X's pattern reaches a pod exactly
      when what stands before the service is X's resource name, up to the characters
      under X's dots, and the service is listed, or what stands there is like shop-X-s or
      starts with something like shop-X-s- for a listed service s. */
  lemma ScopeExactly(services: seq<string>, x: string, pod: Pod)
    requires PlainWords(services) && Tidy(services, pod)
    ensures InScope(services, x, pod) <==>
              (DotLike(ResourceName(x), Front(pod)) && pod.service in services) ||
              DotShadowed(services, ResourceName(x), Front(pod))
  {
    PodNameParts(pod);
    PatternReaches(services, x, PodName(pod));
    forall word | word in services
      ensures DotPrefix(ResourceName(x) + "-" + word + "-", PodName(pod)) <==>
                (DotLike(ResourceName(x), Front(pod)) && word == pod.service) ||
                DotLike(ResourceName(x) + "-" + word, Front(pod)) ||
                    DotPrefix(ResourceName(x) + "-" + word + "-", Front(pod))
    {
      ScopeForWord(ResourceName(x), word, Front(pod), pod.service, Tail(pod));
    }
  }

  /** One half needs nothing of the pod but a listed service. */
  lemma LikeFrontIsReached(services: seq<string>, x: string, pod: Pod)
    requires PlainWords(services) && pod.service in services && DotLike(ResourceName(x), Front(pod))
    ensures InScope(services, x, pod)
  {
    PodNameParts(pod);
    PatternReaches(services, x, PodName(pod));
    SamePod(ResourceName(x), pod.service, Front(pod), Tail(pod));
  }

  lemma StripStem(p: string, t: string)
    ensures DotLike("shop-" + p, "shop-" + t) <==> DotLike(p, t)
    ensures DotPrefix("shop-" + p, "shop-" + t) <==> DotPrefix(p, t)
  {
    var t' := "shop-" + t;
    DotPrefixConcat("shop-", p, t');
    assert t'[..5] == "shop-" && t'[5..] == t;
    DotFreeIsLiteral("shop-", t'[..5]);
    if |p| == |t| {
      DotLikeConcat("shop-", p, t');
    }
  }

  lemma StripShadow(services: seq<string>, x: string, y: string)
    ensures DotShadowed(services, ResourceName(x), ResourceName(y)) <==> DotShadowed(services, x, y)
  {
    forall word
      ensures DotLike(ResourceName(x) + "-" + word, ResourceName(y)) <==> DotLike(x + "-" + word, y)
      ensures DotPrefix(ResourceName(x) + "-" + word + "-", ResourceName(y)) <==> DotPrefix(x + "-" + word + "-", y)
    {
      StripStem(x + "-" + word, y);
      StripStem(x + "-" + word + "-", y);
      assert ResourceName(x) + "-" + word == "shop-" + (x + "-" + word);
      assert ResourceName(x) + "-" + word + "-" == "shop-" + (x + "-" + word + "-");
    }
  }

  /** The same in terms of the Shops' names. A Deployment pod of Y is reached when Y is
      like X, or like X-s or X-s-...; a migration pod of Y when Y is like shop-X, or like
      shop-X-s or shop-X-s-... . */
  lemma ScopeByShop(services: seq<string>, x: string, pod: Pod)
    requires PlainWords(services) && Tidy(services, pod)
    ensures InScope(services, x, pod) <==>
              var stem := if pod.JobPod? then ResourceName(x) else x;
              (DotLike(stem, pod.shop) && pod.service in services) || DotShadowed(services, stem, pod.shop)
  {
    ScopeExactly(services, x, pod);
    if !pod.JobPod? {
      StripStem(x, pod.shop);
      StripShadow(services, x, pod.shop);
    }
  }

  lemma ShadowsAreLonger(services: seq<string>, x: string, y: string)
    requires |y| <= |x|
    ensures !DotShadowed(services, x, y)
  {
    forall word
      ensures !DotLike(x + "-" + word, y) && !DotPrefix(x + "-" + word + "-", y)
    {
      assert |x + "-" + word| > |y|;
    }
  }

  /** Of its own pods, a Shop's pattern reaches exactly those of the listed services'
      Deployments, and never one of a migration Job. */
  lemma ScopeOfOwnPods(services: seq<string>, x: string, pod: Pod)
    requires PlainWords(services) && Tidy(services, pod) && pod.shop == x
    ensures InScope(services, x, pod) <==> pod.WorkloadPod? && pod.service in services
  {
    ScopeByShop(services, x, pod);
    ShadowsAreLonger(services, x, x);
    ShadowsAreLonger(services, ResourceName(x), x);
  }

  /** Shop X's pattern reaches no pod of Shop Y at all exactly when Y is like none of X,
      X-s, X-s-..., shop-X, shop-X-s and shop-X-s-... . */
  lemma IsolatedExactlyWhen(services: seq<string>, x: string, y: string, hash: string, suffix: string)
    requires PlainWords(services)
    requires NoServiceSegment(services, suffix) && NoServiceSegment(services, "migrate-" + hash + "-" + suffix)
    ensures (forall pod: Pod | pod.shop == y && Tidy(services, pod) :: !InScope(services, x, pod)) <==>
              && !DotLike(x, y) && !DotShadowed(services, x, y)
              && !DotLike(ResourceName(x), y) && !DotShadowed(services, ResourceName(x), y)
  {
    forall pod: Pod | pod.shop == y && Tidy(services, pod)
      ensures InScope(services, x, pod) <==>
                var stem := if pod.JobPod? then ResourceName(x) else x;
                (DotLike(stem, y) && pod.service in services) || DotShadowed(services, stem, y)
    {
      ScopeByShop(services, x, pod);
    }
    var workload, job := WorkloadPod(y, services[0], suffix), JobPod(y, services[0], hash, suffix);
    assert services[0] in services;
    assert Tidy(services, workload) && Tidy(services, job);
    assert InScope(services, x, workload) <==> DotLike(x, y) || DotShadowed(services, x, y);
    assert InScope(services, x, job) <==> DotLike(ResourceName(x), y) || DotShadowed(services, ResourceName(x), y);
  }

  // ---- With and without dots ----

  /** Is Y's name X-s, or does it start with X-s-, for one of the services s? */
  ghost predicate Shadowed(services: seq<string>, x: string, y: string)
  {
    exists word :: word in services && (y == x + "-" + word || x + "-" + word + "-" <= y)
  }

  /** The scope when X's name is taken literally. */
  ghost predicate LiteralScope(services: seq<string>, x: string, pod: Pod)
  {
    var stem := if pod.JobPod? then ResourceName(x) else x;
    (pod.shop == stem && pod.service in services) || Shadowed(services, stem, pod.shop)
  }

  lemma DotFreeShadow(services: seq<string>, x: string, y: string)
    requires PlainWords(services) && '.' !in x
    ensures DotShadowed(services, x, y) <==> Shadowed(services, x, y)
  {
    forall word | word in services
      ensures DotLike(x + "-" + word, y) <==> y == x + "-" + word
      ensures DotPrefix(x + "-" + word + "-", y) <==> x + "-" + word + "-" <= y
    {
      DotFreeIsLiteral(x + "-" + word, y);
      DotFreePrefix(x + "-" + word + "-", y);
    }
  }

  /** Without dots: a Deployment pod of Y is in X's scope exactly when Y is X and the
      service is listed, or Y is X-s or starts with X-s-; a migration pod of Y exactly
      when the same holds with shop-X for X. */
  lemma ScopeWithoutDots(services: seq<string>, x: string, pod: Pod)
    requires PlainWords(services) && Tidy(services, pod) && '.' !in x
    ensures InScope(services, x, pod) <==> LiteralScope(services, x, pod)
  {
    var stem := if pod.JobPod? then ResourceName(x) else x;
    ScopeByShop(services, x, pod);
    DotFreeIsLiteral(stem, pod.shop);
    DotFreeShadow(services, stem, pod.shop);
  }

  /** For every dotted name there is another Shop, no extension of it, all of whose
      listed Deployment pods are in the scope. */
  lemma DotsReachFurther(services: seq<string>, x: string) returns (y: string)
    requires PlainWords(services) && '.' in x
    ensures y != x && |y| == |x| && !Shadowed(services, x, y)
    ensures forall service, suffix | service in services :: InScope(services, x, WorkloadPod(y, service, suffix))
  {
    var i :| 0 <= i < |x| && x[i] == '.';
    y := x[i := 'x'];
    assert DotLike(x, y);
    StripStem(x, y);
    forall service, suffix | service in services
      ensures InScope(services, x, WorkloadPod(y, service, suffix))
    {
      LikeFrontIsReached(services, x, WorkloadPod(y, service, suffix));
    }
    forall word
      ensures y != x + "-" + word && !(x + "-" + word + "-" <= y)
    {
      assert |x + "-" + word| > |y|;
    }
  }

  /** So a Shop's name can be taken literally, over all Shops and pods, exactly when it
      has no dot. */
  lemma DotFreeExactlyWhen(services: seq<string>, x: string, suffix: string)
    requires PlainWords(services) && NoServiceSegment(services, suffix)
    ensures '.' !in x <==> forall pod | Tidy(services, pod) :: InScope(services, x, pod) <==>
              LiteralScope(services, x, pod)
  {
    if '.' in x {
      var y := DotsReachFurther(services, x);
      assert services[0] in services;
      var pod := WorkloadPod(y, services[0], suffix);
      assert Tidy(services, pod) && InScope(services, x, pod) && !LiteralScope(services, x, pod);
    } else {
      forall pod | Tidy(services, pod)
        ensures InScope(services, x, pod) <==> LiteralScope(services, x, pod)
      {
        ScopeWithoutDots(services, x, pod);
      }
    }
  }

  // ---- Migration pods ----

  /** Every Shop X reaches the migration pods of the listed services of the Shop that is
      itself named shop-X. */
  lemma NamesakeMigrationsAreReached(services: seq<string>, x: string, service: string, hash: string, suffix: string)
    requires PlainWords(services) && service in services
    ensures ResourceName(x) != x && InScope(services, x, JobPod(ResourceName(x), service, hash, suffix))
  {
    LikeFrontIsReached(services, x, JobPod(ResourceName(x), service, hash, suffix));
    assert |ResourceName(x)| > |x|;
  }

  /** For instance Shop a those of Shop shop-a, whose name is no extension of a. */
  lemma NamesakeExample(services: seq<string>, service: string)
    requires PlainWords(services) && service in services
    ensures InScope(services, "a", JobPod("shop-a", service, "12345678", "abcde"))
    ensures !Shadowed(services, "a", "shop-a")
  {
    assert ResourceName("a") == "shop-a";
    NamesakeMigrationsAreReached(services, "a", service, "12345678", "abcde");
    forall word
      ensures "shop-a" != "a" + "-" + word && !("a" + "-" + word + "-" <= "shop-a")
    {
      assert ("a" + "-" + word)[0] == 'a' && ("a" + "-" + word + "-")[0] == 'a' && "shop-a"[0] == 's';
    }
  }

  /** The scope of the operator's own pattern. */
  lemma BackendScope(x: string, pod: Pod)
    requires Tidy(BACKENDS, pod)
    ensures InScope(BACKENDS, x, pod) <==>
              var stem := if pod.JobPod? then ResourceName(x) else x;
              (DotLike(stem, pod.shop) && pod.service in BACKENDS) || DotShadowed(BACKENDS, stem, pod.shop)
  {
    BackendsArePlain();
    ScopeByShop(BACKENDS, x, pod);
  }
}
