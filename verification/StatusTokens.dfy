/** `parse_nut_status`: flags read from a space-separated status string by padded substring search. */
module StatusTokens {

  /** `s.find(pat) != npos` */
  predicate Contains(s: string, pat: string) {
    exists i | 0 <= i <= |s| :: At(s, pat, i)
  }

  predicate At(s: string, pat: string, i: int) {
    0 <= i && i + |pat| <= |s| && s[i..i + |pat|] == pat
  }

  /** The nine flags of `power_summary`, each modelled by whether its byte is non-zero. */
  datatype Power = Power(
    acPresent: bool, lowBattery: bool, lowRuntime: bool, charging: bool, discharging: bool,
    fullyCharged: bool, overload: bool, boost: bool, buck: bool)

  function Padded(s: string): string {
    " " + s + " "
  }

  /** A search for the token with a space on each side, in the padded status. */
  predicate Announces(nutStatus: string, tok: string) {
    Contains(Padded(nutStatus), Padded(tok))
  }

  /** The status parser: OL hides OB, and DISCHRG sets the discharging flag on its own. */
  function ParseStatus(nutStatus: string): Power {
    Power(
      acPresent := Announces(nutStatus, "OL"),
      lowBattery := Announces(nutStatus, "LB"),
      lowRuntime := Announces(nutStatus, "FSD"),
      charging := Announces(nutStatus, "CHRG"),
      discharging := (!Announces(nutStatus, "OL") && Announces(nutStatus, "OB")) || Announces(nutStatus, "DISCHRG"),
      fullyCharged := false,
      overload := Announces(nutStatus, "OVER"),
      boost := Announces(nutStatus, "BOOST"),
      buck := Announces(nutStatus, "BUCK"))
  }

  /** The tokens of a string: the pieces between single spaces. */
  function Tokens(s: string): set<string> {
    var p := FirstSpace(s);
    if p == |s| then {s} else {s[..p]} + Tokens(s[p + 1..])
  }

  function FirstSpace(s: string): (p: nat)
    ensures p <= |s| && ' ' !in s[..p] && (p < |s| ==> s[p] == ' ')
  {
    if s == "" || s[0] == ' ' then 0 else
    var q := FirstSpace(s[1..]);
    assert s[..q + 1] == [s[0]] + s[1..][..q];
    q + 1
  }

  /** The flags a set of tokens stands for. */
  function FlagsOf(ts: set<string>): Power {
    Power(
      acPresent := "OL" in ts,
      lowBattery := "LB" in ts,
      lowRuntime := "FSD" in ts,
      charging := "CHRG" in ts,
      discharging := ("OB" in ts && "OL" !in ts) || "DISCHRG" in ts,
      fullyCharged := false,
      overload := "OVER" in ts,
      boost := "BOOST" in ts,
      buck := "BUCK" in ts)
  }

  /** A space-free pattern between spaces occurs in a padded word exactly when it is the word. */
  lemma MatchInWord(w: string, rest: string, tok: string)
    requires ' ' !in w && ' ' !in tok
    ensures At(" " + w + " " + rest, Padded(tok), 0) <==> tok == w
    ensures forall i | 0 < i <= |w| :: !At(" " + w + " " + rest, Padded(tok), i)
  {
    var s := " " + w + " " + rest;
    var pat := Padded(tok);
    if At(s, pat, 0) {
      assert forall k | 0 <= k < |pat| :: s[k] == s[0..|pat|][k] == pat[k];
      var after := s[|tok| + 1..];
      assert s[1..] == tok + after && s[1..] == w + (" " + rest);
      assert after[0] == s[|tok| + 1] == pat[|tok| + 1] == ' ';
      FirstSpaceOf(tok, after);
      FirstSpaceOf(w, " " + rest);
      assert tok == s[1..][..|tok|] == w;
    }
    if tok == w {
      assert s[0..|pat|] == pat;
    }
    forall i | 0 < i <= |w| ensures !At(s, pat, i) {
      assert s[i] == w[i - 1];
      assert w[i - 1] in w;
      NoMatch(s, pat, i);
    }
  }

  lemma NoMatch(s: string, pat: string, i: int)
    requires 0 <= i < |s| && pat != "" && s[i] != pat[0]
    ensures !At(s, pat, i)
  {
  }

  lemma MatchShift(prefix: string, s: string, pat: string, i: int)
    requires 0 <= i
    ensures At(prefix + s, pat, i + |prefix|) <==> At(s, pat, i)
  {
  }

  /** Padded search is tokenisation: a space-free pattern is found between spaces in the padded
      string exactly when it is one of the string's tokens. */
  lemma {:induction false} PaddedSearchIsTokenisation(s: string, tok: string)
    requires ' ' !in tok
    ensures Announces(s, tok) <==> tok in Tokens(s)
    decreases |s|
  {
    var p := FirstSpace(s);
    var w := s[..p];
    if p == |s| {
      assert w == s && Padded(s) == " " + w + " " + "";
      LastWord(w, tok);
    } else {
      var rest := s[p + 1..];
      assert s == w + " " + rest;
      PaddedSearchIsTokenisation(rest, tok);
      FirstWord(w, rest, tok);
    }
  }

  lemma LastWord(w: string, tok: string)
    requires ' ' !in w && ' ' !in tok
    ensures Contains(Padded(w), Padded(tok)) <==> tok == w
  {
    var all, pat := Padded(w), Padded(tok);
    assert all == " " + w + " " + "";
    MatchInWord(w, "", tok);
    if tok == w {
      assert At(all, pat, 0);
    }
  }

  /** Where a token can match in a string that starts with a word: at that word, or further on. */
  lemma MatchPlaces(w: string, rest: string, tok: string, i: nat)
    requires ' ' !in w && ' ' !in tok
    ensures var shift := |w| + 1;
      At(Padded(w + " " + rest), Padded(tok), i) <==>
        if i == 0 then tok == w else i >= shift && At(Padded(rest), Padded(tok), i - shift)
  {
    assert Padded(w + " " + rest) == (" " + w) + Padded(rest);
    assert Padded(w + " " + rest) == " " + w + " " + (rest + " ");
    if i == 0 {
      MatchInWord(w, rest + " ", tok);
    } else if i <= |w| {
      MatchInWord(w, rest + " ", tok);
    } else {
      MatchShift(" " + w, Padded(rest), Padded(tok), i - (|w| + 1));
    }
  }

  lemma FirstWord(w: string, rest: string, tok: string)
    requires ' ' !in w && ' ' !in tok
    ensures Contains(Padded(w + " " + rest), Padded(tok)) <==> tok == w || Contains(Padded(rest), Padded(tok))
  {
    var all, tail, pat, shift := Padded(w + " " + rest), Padded(rest), Padded(tok), |w| + 1;
    if tok == w {
      MatchPlaces(w, rest, tok, 0);
    }
    if Contains(tail, pat) {
      var i :| 0 <= i <= |tail| && At(tail, pat, i);
      MatchPlaces(w, rest, tok, i + shift);
    }
    if Contains(all, pat) {
      var i :| 0 <= i <= |all| && At(all, pat, i);
      MatchPlaces(w, rest, tok, i);
    }
  }

  /** The parser's flags are a function of the set of tokens: order and repeats do not matter. */
  lemma ParseStatusIsFlagsOf(s: string)
    ensures ParseStatus(s) == FlagsOf(Tokens(s))
  {
    PaddedSearchIsTokenisation(s, "OL");
    PaddedSearchIsTokenisation(s, "OB");
    PaddedSearchIsTokenisation(s, "LB");
    PaddedSearchIsTokenisation(s, "FSD");
    PaddedSearchIsTokenisation(s, "CHRG");
    PaddedSearchIsTokenisation(s, "DISCHRG");
    PaddedSearchIsTokenisation(s, "OVER");
    PaddedSearchIsTokenisation(s, "BOOST");
    PaddedSearchIsTokenisation(s, "BUCK");
  }

  /** Joining tokens with spaces and splitting again gives back the same set. */
  function JoinTokens(ts: seq<string>): string
    requires ts != []
  {
    if |ts| == 1 then ts[0] else ts[0] + " " + JoinTokens(ts[1..])
  }

  lemma TokensOfWord(w: string)
    requires ' ' !in w
    ensures Tokens(w) == {w}
  {
  }

  lemma TokensCons(w: string, rest: string)
    requires ' ' !in w
    ensures Tokens(w + ([' '] + rest)) == {w} + Tokens(rest)
  {
    var s := w + ([' '] + rest);
    FirstSpaceOf(w, [' '] + rest);
    assert s[..|w|] == w && s[|w| + 1..] == rest;
  }

  lemma {:induction false} TokensOfJoin(ts: seq<string>)
    requires ts != [] && forall t | t in ts :: ' ' !in t
    ensures Tokens(JoinTokens(ts)) == set t | t in ts
  {
    var first, more := ts[0], ts[1..];
    if |ts| == 1 {
      TokensOfWord(first);
      assert (set t | t in ts) == {first};
    } else {
      assert JoinTokens(ts) == first + ([' '] + JoinTokens(more));
      TokensCons(first, JoinTokens(more));
      TokensOfJoin(more);
      assert (set t | t in ts) == {first} + set t | t in more;
    }
  }

  lemma {:induction false} FirstSpaceOf(w: string, rest: string)
    requires ' ' !in w && (rest == "" || rest[0] == ' ')
    ensures FirstSpace(w + rest) == |w|
  {
    if w == "" {
      assert w + rest == rest;
    } else {
      assert w[0] in w && (w + rest)[0] == w[0];
      assert (w + rest)[1..] == w[1..] + rest;
      FirstSpaceOf(w[1..], rest);
    }
  }

  /** A status announced as a list of tokens sets exactly the flags of that list, in any order. */
  lemma FlagsFromTokenList(ts: seq<string>)
    requires ts != [] && forall t | t in ts :: ' ' !in t
    ensures ParseStatus(JoinTokens(ts)) == FlagsOf(set t | t in ts)
  {
    TokensOfJoin(ts);
    ParseStatusIsFlagsOf(JoinTokens(ts));
  }
}
