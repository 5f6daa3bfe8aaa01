/** First occurrences, as `std::string::find` reports them. */
module Strings {
  import opened Bytes

  predicate Occurs(s: string, pat: string, i: nat) {
    i + |pat| <= |s| && s[i..i + |pat|] == pat
  }

  /** The first place at or after `i` where `pat` occurs. */
  function FindFrom(s: string, pat: string, i: nat): (r: Option<nat>)
    ensures r.Some? ==>
      i <= r.value && Occurs(s, pat, r.value) && forall j: nat | i <= j < r.value :: !Occurs(s, pat, j)
    ensures r.None? ==> forall j: nat | i <= j :: !Occurs(s, pat, j)
    decreases |s| - i
  {
    if i + |pat| > |s| then None
    else if s[i..i + |pat|] == pat then Some(i)
    else FindFrom(s, pat, i + 1)
  }

  function Find(s: string, pat: string): Option<nat> {
    FindFrom(s, pat, 0)
  }

  lemma OccursInPrefix(a: string, b: string, pat: string, i: nat)
    requires i + |pat| <= |a|
    ensures Occurs(a, pat, i) <==> Occurs(a + b, pat, i)
  {
  }

  /** The first match in a prefix is the first match in the whole; a later one reaches past the prefix. */
  lemma FindInPrefix(a: string, b: string, pat: string)
    ensures Find(a, pat).Some? ==> Find(a + b, pat) == Find(a, pat)
    ensures Find(a, pat).None? && Find(a + b, pat).Some? ==> Find(a + b, pat).value + |pat| > |a|
  {
    var f, g := Find(a, pat), Find(a + b, pat);
    if f.Some? {
      OccursInPrefix(a, b, pat, f.value);
      assert g.Some? && g.value <= f.value;
      OccursInPrefix(a, b, pat, g.value);
    } else if g.Some? && g.value + |pat| <= |a| {
      OccursInPrefix(a, b, pat, g.value);
      assert false;
    }
  }

  /** A first match is determined by being a match with none before it. */
  lemma FindIs(s: string, pat: string, i: nat)
    requires Occurs(s, pat, i) && forall j: nat | j < i :: !Occurs(s, pat, j)
    ensures Find(s, pat) == Some(i)
  {
  }

  function JoinLines(lines: seq<string>): string {
    if lines == [] then "" else if |lines| == 1 then lines[0] else lines[0] + "\n" + JoinLines(lines[1..])
  }
}
