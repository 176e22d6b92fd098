/** Turning a shop owner's channel name into one that Discord accepts. */
module ChannelName {

  const MAX_LENGTH := 100
  const FALLBACK := "unnamed-channel"

  /** Lower-casing as far as it matters here. Besides A-Z, two other letters have
      an ASCII lower case: the dotted capital I and the Kelvin sign. Every other
      letter outside ASCII stays outside ASCII and is removed later, whatever its
      lower case is. */
  function Lower(c: char): char
  {
    if 'A' <= c <= 'Z' then (c as int - 'A' as int + 'a' as int) as char
    else if c == '\U{0130}' then 'i'
    else if c == '\U{212A}' then 'k'
    else c
  }

  predicate IsValid(c: char)
  {
    'a' <= c <= 'z' || '0' <= c <= '9' || c == '_' || c == '-'
  }

  // ---- The three passes ----

  function ToLower(s: string): string
  {
    seq(|s|, i requires 0 <= i < |s| => Lower(s[i]))
  }

  function Dashed(s: string): string
  {
    seq(|s|, i requires 0 <= i < |s| => if s[i] == ' ' then '-' else s[i])
  }

  function DropInvalid(s: string): string
  {
    if s == "" then ""
    else (if IsValid(s[0]) then [s[0]] else []) + DropInvalid(s[1..])
  }

  // ---- One pass ----

  /** What becomes of one character. */
  function Mapped(c: char): string
  {
    if c == ' ' then "-"
    else if IsValid(Lower(c)) then [Lower(c)]
    else ""
  }

  function MapAndFilter(s: string): string
  {
    if s == "" then "" else Mapped(s[0]) + MapAndFilter(s[1..])
  }

  lemma {:induction false} ThreePassesAreOne(s: string)
    ensures DropInvalid(Dashed(ToLower(s))) == MapAndFilter(s)
    decreases |s|
  {
    if s != "" {
      var t := Dashed(ToLower(s));
      ThreePassesAreOne(s[1..]);
      assert Dashed(ToLower(s[1..])) == t[1..];
    }
  }

  function Trimmed(s: string): string
  {
    if |s| > MAX_LENGTH then s[..MAX_LENGTH] else s
  }

  /** The name that ends up on Discord. */
  function Sanitized(s: string): string
  {
    var kept := Trimmed(MapAndFilter(s));
    if kept == "" then FALLBACK else kept
  }

  /** ASCII letters, digits, underscores, dashes and spaces. */
  predicate Plain(c: char)
  {
    'a' <= c <= 'z' || 'A' <= c <= 'Z' || '0' <= c <= '9' || c == '_' || c == '-' || c == ' '
  }

  predicate PlainText(s: string)
  {
    forall i | 0 <= i < |s| :: Plain(s[i])
  }

  /** What each of these becomes: a space a dash, a capital the letter at its place in the
      alphabet, and everything else itself. */
  predicate Renders(r: char, c: char)
  {
    if c == ' ' then r == '-'
    else if 'A' <= c <= 'Z' then 'a' <= r <= 'z' && r as int - 'a' as int == c as int - 'A' as int
    else r == c
  }

  /** Plain text keeps its length, and each character is rendered in its place. */
  lemma {:induction false} PlainIsRendered(s: string)
    requires PlainText(s)
    ensures |MapAndFilter(s)| == |s| && forall i | 0 <= i < |s| :: Renders(MapAndFilter(s)[i], s[i])
    decreases |s|
  {
    if s != "" {
      PlainIsRendered(s[1..]);
      var first, rest := Mapped(s[0]), MapAndFilter(s[1..]);
      assert |first| == 1 && Renders(first[0], s[0]);
      assert forall i | 1 <= i < |s| :: (first + rest)[i] == rest[i - 1] && s[i] == s[1..][i - 1];
    }
  }

  /** What becomes of every character: the plain ones are rendered, the dotted capital I
      and the Kelvin sign become their ASCII lower case, and all others are dropped. */
  lemma EveryCharacter(c: char)
    ensures Plain(c) ==> |Mapped(c)| == 1 && Renders(Mapped(c)[0], c)
    ensures !Plain(c) ==> Mapped(c) == if c == '\U{0130}' then "i" else if c == '\U{212A}' then "k" else ""
  {
  }

  /** The client's own loop-free sequence of reassignments. */
  method Sanitize(channelName: string) returns (name: string)
    ensures name == Sanitized(channelName)
    ensures Acceptable(name)
    ensures name <= MapAndFilter(channelName) || (MapAndFilter(channelName) == "" && name == "unnamed-channel")
    ensures channelName != "" && PlainText(channelName) ==>
              && |name| == (if |channelName| < 100 then |channelName| else 100)
              && forall i | 0 <= i < |name| :: Renders(name[i], channelName[i])
  {
    name := ToLower(channelName);
    name := Dashed(name);
    name := DropInvalid(name);
    ThreePassesAreOne(channelName);
    AllValid(channelName);
    if PlainText(channelName) {
      PlainIsRendered(channelName);
    }
    if |name| > 100 {
      name := name[..100];
    }
    if name == "" {
      name := "unnamed-channel";
    }
  }

  lemma {:induction false} AllValid(s: string)
    ensures forall i | 0 <= i < |MapAndFilter(s)| :: IsValid(MapAndFilter(s)[i])
    ensures |MapAndFilter(s)| <= |s|
    decreases |s|
  {
    if s != "" { AllValid(s[1..]); }
  }

  lemma {:induction false} ValidIsKept(s: string)
    requires forall i | 0 <= i < |s| :: IsValid(s[i])
    ensures MapAndFilter(s) == s
    decreases |s|
  {
    if s != "" {
      ValidIsKept(s[1..]);
      assert Mapped(s[0]) == [s[0]];
      assert s == [s[0]] + s[1..];
    }
  }

  predicate Acceptable(s: string)
  {
    1 <= |s| <= MAX_LENGTH && forall i | 0 <= i < |s| :: IsValid(s[i])
  }

  lemma TrimmedIsAcceptable(kept: string)
    requires forall i | 0 <= i < |kept| :: IsValid(kept[i])
    ensures kept != "" ==> Acceptable(Trimmed(kept))
  {
    if |kept| > MAX_LENGTH {
      assert forall i | 0 <= i < MAX_LENGTH :: kept[..MAX_LENGTH][i] == kept[i];
    }
  }

  lemma FallbackIsAcceptable()
    ensures Acceptable(FALLBACK)
  {
  }

  lemma SanitizedIsAcceptable(s: string)
    ensures Acceptable(Sanitized(s))
  {
    AllValid(s);
    TrimmedIsAcceptable(MapAndFilter(s));
    FallbackIsAcceptable();
  }

  /** The names that sanitising leaves alone are exactly the acceptable ones. */
  lemma FixedPoints(s: string)
    ensures Sanitized(s) == s <==> Acceptable(s)
  {
    SanitizedIsAcceptable(s);
    if Acceptable(s) {
      ValidIsKept(s);
    }
  }

  lemma Idempotent(s: string)
    ensures Sanitized(Sanitized(s)) == Sanitized(s)
  {
    SanitizedIsAcceptable(s);
    FixedPoints(Sanitized(s));
  }
}
