/** Which lines the client takes for variables: the scan format `VAR %255s %255s "%255[^\n"]"` as a grammar. */
module NutScan {
  import opened Bytes
  import opened NutClient
  import opened NutVars

  predicate Blank(gap: string) {
    forall c | c in gap :: IsSpace(c)
  }

  predicate Unbroken(w: string) {
    forall c | c in w :: !IsSpace(c)
  }

  /** A word: as long as it goes, but no longer than the field. */
  predicate IsWord(w: string, rest: string, max: nat) {
    |w| <= max && Unbroken(w) && (|w| == max || rest == "" || IsSpace(rest[0]))
  }

  predicate EndsValue(c: char) {
    c == '"' || c == '\n'
  }

  predicate IsValue(v: string, rest: string, max: nat) {
    |v| <= max && (forall c | c in v :: !EndsValue(c)) && (|v| == max || rest == "" || EndsValue(rest[0]))
  }

  /** A line in its parts: the keyword, the UPS, the name, and the value behind a quote, with any white space or none
      between them. The closing quote is not needed. */
  predicate Reads(s: string, gap0: string, ups: string, gap1: string, name: string, gap2: string, value: string,
                  rest: string) {
    && Blank(gap0) && Blank(gap1) && Blank(gap2) && ups != "" && name != "" && value != ""
    && s == "VAR" + (gap0 + (ups + (gap1 + (name + (gap2 + ("\"" + (value + rest)))))))
    && IsWord(ups, gap1 + (name + (gap2 + ("\"" + (value + rest)))), 255)
    && IsWord(name, gap2 + ("\"" + (value + rest)), 255)
    && IsValue(value, rest, 255)
  }

  lemma {:induction false} SkipGap(gap: string, t: string)
    requires Blank(gap) && (t == "" || !IsSpace(t[0]))
    ensures SkipSpace(gap + t) == t
  {
    if gap == "" {
      assert gap + t == t;
    } else {
      assert gap[0] in gap && forall c | c in gap[1..] :: c in gap;
      assert (gap + t)[1..] == gap[1..] + t;
      SkipGap(gap[1..], t);
    }
  }

  lemma {:induction false} GapOf(s: string) returns (gap: string)
    ensures Blank(gap) && s == gap + SkipSpace(s) && (SkipSpace(s) == "" || !IsSpace(SkipSpace(s)[0]))
  {
    if s != "" && IsSpace(s[0]) {
      var more := GapOf(s[1..]);
      gap := [s[0]] + more;
      assert s == [s[0]] + s[1..];
    } else {
      gap := "";
    }
  }

  lemma {:induction false} WordIs(w: string, rest: string, max: nat)
    requires IsWord(w, rest, max)
    ensures WordLength(w + rest, max) == |w|
  {
    if w == "" {
      assert w + rest == rest;
    } else {
      assert w[0] in w && forall c | c in w[1..] :: c in w;
      assert (w + rest)[1..] == w[1..] + rest;
      WordIs(w[1..], rest, max - 1);
    }
  }

  lemma {:induction false} WordOf(s: string, max: nat)
    ensures var n := WordLength(s, max); IsWord(s[..n], s[n..], max)
  {
    if max == 0 || s == "" || IsSpace(s[0]) {
    } else {
      var n := WordLength(s[1..], max - 1);
      WordOf(s[1..], max - 1);
      assert s[..n + 1] == [s[0]] + s[1..][..n] && s[n + 1..] == s[1..][n..];
    }
  }

  lemma {:induction false} ValueIs(v: string, rest: string, max: nat)
    requires IsValue(v, rest, max)
    ensures ValueLength(v + rest, max) == |v|
  {
    if v == "" {
      assert v + rest == rest;
    } else {
      assert v[0] in v && forall c | c in v[1..] :: c in v;
      assert (v + rest)[1..] == v[1..] + rest;
      ValueIs(v[1..], rest, max - 1);
    }
  }

  lemma {:induction false} ValueIn(s: string, max: nat)
    ensures var n := ValueLength(s, max); IsValue(s[..n], s[n..], max)
  {
    if max == 0 || s == "" || EndsValue(s[0]) {
    } else {
      var n := ValueLength(s[1..], max - 1);
      ValueIn(s[1..], max - 1);
      assert s[..n + 1] == [s[0]] + s[1..][..n] && s[n + 1..] == s[1..][n..];
    }
  }

  /** A word, a gap and what follows, taken apart. */
  lemma WordThenGap(w: string, gap: string, t: string)
    requires w != "" && IsWord(w, gap + t, 255) && Blank(gap) && t != "" && !IsSpace(t[0])
    ensures var s := w + (gap + t);
      WordLength(s, WIDTH) == |w| && s[..|w|] == w && SkipSpace(s[|w|..]) == t
  {
    var s := w + (gap + t);
    WordIs(w, gap + t, 255);
    assert s[..|w|] == w && s[|w|..] == gap + t;
    SkipGap(gap, t);
  }

  lemma ValueScanned(name: string, value: string, rest: string)
    requires value != "" && IsValue(value, rest, 255)
    ensures ScanValue(name, "\"" + (value + rest)) == Some(Variable(name, value))
  {
    var s := "\"" + (value + rest);
    assert s[1..] == value + rest;
    ValueIs(value, rest, 255);
    assert s[1..][..|value|] == value;
  }

  lemma PartsScan(s: string, gap0: string, ups: string, gap1: string, name: string, gap2: string, value: string,
                  rest: string)
    requires Reads(s, gap0, ups, gap1, name, gap2, value, rest)
    ensures ScanVar(s) == Some(Variable(name, value))
  {
    var quoted := "\"" + (value + rest);
    var atName := name + (gap2 + quoted);
    var atUps := ups + (gap1 + atName);
    assert ups[0] in ups && name[0] in name;
    assert s[..3] == "VAR" && s[3..] == gap0 + atUps;
    SkipGap(gap0, atUps);
    WordThenGap(ups, gap1, atName);
    WordThenGap(name, gap2, quoted);
    ValueScanned(name, value, rest);
  }

  /** A word and a gap off the front. */
  lemma TakeWord(s: string) returns (w: string, gap: string)
    ensures w == s[..WordLength(s, WIDTH)] && Blank(gap)
    ensures var t := SkipSpace(s[WordLength(s, WIDTH)..]); s == w + (gap + t) && IsWord(w, gap + t, 255)
  {
    var n := WordLength(s, WIDTH);
    WordOf(s, WIDTH);
    w := s[..n];
    gap := GapOf(s[n..]);
    assert s == s[..n] + s[n..];
  }

  lemma ScanParts(s: string, v: Variable) returns (gap0: string, ups: string, gap1: string, gap2: string, rest: string)
    requires ScanVar(s) == Some(v)
    ensures Reads(s, gap0, ups, gap1, v.name, gap2, v.value, rest)
  {
    gap0 := GapOf(s[3..]);
    var atUps := SkipSpace(s[3..]);
    assert s == "VAR" + s[3..];
    var name;
    ups, gap1 := TakeWord(atUps);
    var atName := SkipSpace(atUps[|ups|..]);
    name, gap2 := TakeWord(atName);
    var quoted := SkipSpace(atName[|name|..]);
    var n := ValueLength(quoted[1..], WIDTH);
    ValueIn(quoted[1..], WIDTH);
    rest := quoted[1..][n..];
    assert quoted == "\"" + (quoted[1..][..n] + rest);
  }

  /** A line is taken for a variable exactly if it has these parts, and then for the one they name. */
  lemma ScansExactly(s: string, v: Variable)
    ensures ScanVar(s) == Some(v) <==>
      exists gap0, ups, gap1, gap2, rest :: Reads(s, gap0, ups, gap1, v.name, gap2, v.value, rest)
  {
    if ScanVar(s) == Some(v) {
      var gap0, ups, gap1, gap2, rest := ScanParts(s, v);
    }
    forall gap0, ups, gap1, gap2, rest | Reads(s, gap0, ups, gap1, v.name, gap2, v.value, rest)
      ensures ScanVar(s) == Some(v)
    {
      PartsScan(s, gap0, ups, gap1, v.name, gap2, v.value, rest);
    }
  }

  /** Where a line begins. */
  predicate LineStart(text: string, i: nat) {
    i < |text| && (i == 0 || text[i - 1] == '\n')
  }

  /** What the scan makes of the text from `i` on, which ends at its first NUL. */
  function ScanAt(text: string, i: nat): Option<Variable>
    requires i <= |text|
  {
    ScanVar(CString(text[i..]))
  }

  /** Line `i` gives a variable of this name. */
  ghost predicate Names(text: string, i: nat, name: string) {
    forall x {:trigger Seen(x)} | Seen(x) ::
      LineStart(text, i) && ScanAt(text, i).Some? && ScanAt(text, i).value.name == name
  }

  /** Line `i` gives this variable, and no later line gives one of the same name. */
  ghost predicate LastOf(text: string, i: nat, v: Variable) {
    LineStart(text, i) && ScanAt(text, i) == Some(v) && forall j: nat | i < j :: !Names(text, j, v.name)
  }

  /** No line gives a variable of this name. */
  ghost predicate Unnamed(text: string, name: string) {
    forall j: nat :: !Names(text, j, name)
  }

  /** The lines behind the first one, in the text and in what is left without it. */
  lemma LaterLine(text: string, p: nat, i: nat)
    requires p < |text| && text[p] == '\n' && i + (p + 1) < |text|
    ensures LineStart(text[p + 1..], i) <==> LineStart(text, i + (p + 1))
    ensures ScanAt(text[p + 1..], i) == ScanAt(text, i + (p + 1))
  {
    assert text[p + 1..][i..] == text[i + (p + 1)..];
  }

  lemma LaterNames(text: string, p: nat, i: nat, name: string)
    requires p < |text| && text[p] == '\n'
    ensures Names(text[p + 1..], i, name) <==> Names(text, i + (p + 1), name)
  {
    assert Seen(0);
    if i + (p + 1) < |text| {
      LaterLine(text, p, i);
    }
  }

  lemma FirstOrLater(text: string, i: nat)
    requires LineStart(text, i)
    ensures i == 0 || NewlineAt(text) < i
  {
    var p := NewlineAt(text);
    assert forall j | 0 <= j < p :: text[j] == text[..p][j] && text[j] != '\n';
  }

  lemma NamesALine(text: string, i: nat, name: string)
    requires Names(text, i, name)
    ensures LineStart(text, i) && (i == 0 || NewlineAt(text) < i < |text|)
  {
    assert Seen(0);
    FirstOrLater(text, i);
  }

  /** No line but the first gives the name, exactly if none does in what is left without it. */
  lemma UnnamedTail(text: string, name: string)
    requires text != ""
    ensures Unnamed(LineAfter(text), name) <==> forall j: nat | 0 < j :: !Names(text, j, name)
  {
    var p, tail := NewlineAt(text), LineAfter(text);
    if forall j: nat | 0 < j :: !Names(text, j, name) {
      forall j: nat ensures !Names(tail, j, name) {
        if p < |text| {
          LaterNames(text, p, j, name);
        } else {
          assert Seen(0);
        }
      }
    }
    if Unnamed(tail, name) {
      forall j: nat | 0 < j ensures !Names(text, j, name) {
        if Names(text, j, name) {
          NamesALine(text, j, name);
          LaterNames(text, p, j - (p + 1), name);
        }
      }
    }
  }

  lemma FirstNames(text: string, name: string)
    requires text != ""
    ensures Names(text, 0, name) <==> ScanAt(text, 0).Some? && ScanAt(text, 0).value.name == name
  {
    assert Seen(0);
  }

  /** A name that only the first line can give. */
  lemma UnnamedLater(text: string, name: string)
    requires text != ""
    ensures Unnamed(text, name) <==>
      Unnamed(LineAfter(text), name) && !(ScanAt(text, 0).Some? && ScanAt(text, 0).value.name == name)
  {
    UnnamedTail(text, name);
    FirstNames(text, name);
  }

  lemma LastShifts(text: string, p: nat, i: nat, v: Variable)
    requires p < |text| && text[p] == '\n' && i + (p + 1) < |text|
    ensures LastOf(text[p + 1..], i, v) <==> LastOf(text, i + (p + 1), v)
  {
    LaterLine(text, p, i);
    NoneLaterShifts(text, text[p + 1..], p, i, v.name);
  }

  lemma NoneLaterShifts(text: string, tail: string, p: nat, i: nat, name: string)
    requires p < |text| && text[p] == '\n' && tail == text[p + 1..]
    ensures (forall j: nat | i < j :: !Names(tail, j, name)) <==>
      forall j: nat | i + (p + 1) < j :: !Names(text, j, name)
  {
    if forall j: nat | i < j :: !Names(tail, j, name) {
      forall j: nat | i + (p + 1) < j ensures !Names(text, j, name) {
        LaterNames(text, p, j - (p + 1), name);
      }
    }
    if forall j: nat | i + (p + 1) < j :: !Names(text, j, name) {
      forall j: nat | i < j ensures !Names(tail, j, name) {
        LaterNames(text, p, j, name);
      }
    }
  }

  /** The last line of a name is in what is left without the first line, or it is the first line. */
  lemma LastLater(text: string, v: Variable)
    requires text != ""
    ensures (exists i :: LastOf(text, i, v)) <==>
      (exists i :: LastOf(LineAfter(text), i, v)) || (ScanAt(text, 0) == Some(v) && Unnamed(LineAfter(text), v.name))
  {
    var p, tail := NewlineAt(text), LineAfter(text);
    UnnamedTail(text, v.name);
    forall i | LastOf(text, i, v)
      ensures (exists k :: LastOf(tail, k, v)) || (ScanAt(text, 0) == Some(v) && Unnamed(tail, v.name))
    {
      FirstOrLater(text, i);
      if i > 0 {
        LastShifts(text, p, i - (p + 1), v);
      }
    }
    forall i | LastOf(tail, i, v) ensures exists k :: LastOf(text, k, v) {
      LastShifts(text, p, i, v);
      assert LastOf(text, i + (p + 1), v);
    }
    if ScanAt(text, 0) == Some(v) && Unnamed(tail, v.name) {
      assert LastOf(text, 0, v);
    }
  }

  lemma {:induction false} VarsFromLines(text: string, vars: map<string, string>, v: Variable)
    ensures var read := VarsFrom(text, vars);
      v.name in read && read[v.name] == v.value <==>
      (exists i :: LastOf(text, i, v)) || (v.name in vars && vars[v.name] == v.value && Unnamed(text, v.name))
    decreases |text|
  {
    if text == "" {
      assert Seen(0);
    } else {
      var more := Collect(vars, ScanAt(text, 0));
      assert text[0..] == text;
      VarsFromLine(text, vars);
      VarsFromLines(LineAfter(text), more, v);
      LastLater(text, v);
      UnnamedLater(text, v.name);
    }
  }

  /** What a response says: a variable has a value exactly if the last line that names it gives that value, and an
      error says nothing. */
  lemma ResponseSays(response: string, v: Variable)
    ensures var read := Parsed(response);
      v.name in read && read[v.name] == v.value <==>
      !StartsWith(response, "ERR ") && exists i :: LastOf(response, i, v)
  {
    VarsFromLines(response, map[], v);
  }
}
