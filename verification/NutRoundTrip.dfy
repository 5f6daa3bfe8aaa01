/** Rendering variables as a NUT server does (RFC 9271, section 4.2) and reading them back. */
module NutRoundTrip {
  import opened Bytes
  import opened Strings
  import opened NutClient
  import opened NutBlocks
  import opened NutVars
  import opened NutLimits

  /** A server writes a quote or a backslash inside a value with a backslash before it. */
  function Escape(value: string): string {
    if value == "" then ""
    else (if value[0] == '"' || value[0] == '\\' then ['\\', value[0]] else [value[0]]) + Escape(value[1..])
  }

  function RenderHead(ups: string, name: string): string {
    "VAR " + ups + " " + name + " \""
  }

  function RenderLine(ups: string, v: Variable): string {
    RenderHead(ups, v.name) + (Escape(v.value) + "\"")
  }

  /** A name the scanner takes as one word. */
  predicate Word(s: string) {
    0 < |s| <= 255 && forall c | c in s :: !IsSpace(c) && c != '\0'
  }

  predicate Stops(c: char) {
    c == '"' || c == '\n' || c == '\0'
  }

  /** Values of at most `max` characters that survive escaping and scanning. A backslash is doubled by the
      server and never undone, so it can only be part of a run that fills the field to its last place. */
  predicate Survives(value: string, max: nat) {
    && |value| <= max
    && (forall c | c in value :: !Stops(c))
    && forall i | 0 <= i < |value| :: value[i] == '\\' ==>
         |value| == max && forall j | i <= j < |value| :: value[j] == '\\'
  }

  function Scanned(t: string, max: nat): string {
    t[..ValueLength(t, max)]
  }

  lemma ScannedCons(c: char, t: string, max: nat)
    ensures Scanned([c] + t, max) ==
      if max == 0 || c == '\n' || c == '"' then "" else [c] + Scanned(t, max - 1)
  {
  }

  lemma {:induction false} CStringHead(a: string, b: string)
    requires '\0' !in a
    ensures CString(a + b) == a + CString(b)
  {
    if a == "" {
      assert a + b == b;
    } else {
      assert (a + b)[1..] == a[1..] + b;
      assert a[0] in a && forall c | c in a[1..] :: c in a;
      CStringHead(a[1..], b);
    }
  }

  /** The rest of the input as the scanner sees it, once it is at the value. */
  function AtValue(value: string, after: string): string {
    CString(Escape(value) + ("\"" + after))
  }

  lemma AtValueCons(value: string, after: string)
    requires value != ""
    ensures var t := AtValue(value[1..], after);
      AtValue(value, after) ==
        if value[0] == '"' || value[0] == '\\' then ['\\'] + ([value[0]] + t)
        else if value[0] == '\0' then ""
        else [value[0]] + t
  {
    var c := value[0];
    var rest := Escape(value[1..]) + ("\"" + after);
    if c == '"' || c == '\\' {
      assert Escape(value) + ("\"" + after) == ['\\', c] + rest;
      CStringHead(['\\', c], rest);
      assert ['\\', c] + CString(rest) == ['\\'] + ([c] + CString(rest));
    } else {
      assert Escape(value) + ("\"" + after) == [c] + rest;
      if c != '\0' {
        CStringHead([c], rest);
      }
    }
  }

  lemma AtEmptyValue(after: string)
    ensures AtValue("", after) == ['"'] + CString(after)
  {
    assert Escape("") + ("\"" + after) == ['"'] + after;
    CStringHead(['"'], after);
  }

  lemma ConsEqual(c: char, s: string, value: string)
    requires value != ""
    ensures [c] + s == value <==> c == value[0] && s == value[1..]
  {
  }

  predicate Backslashes(s: string) {
    forall i | 0 <= i < |s| :: s[i] == '\\'
  }

  lemma BackslashesCons(s: string)
    requires s != ""
    ensures Backslashes(s) <==> s[0] == '\\' && Backslashes(s[1..])
  {
  }

  /** Behind a pending backslash, a value is only read back if it is all backslashes and fills the field. */
  lemma {:induction false} BehindBackslashes(extra: string, value: string, after: string, max: nat)
    requires extra != "" && Backslashes(extra)
    ensures Scanned(extra + AtValue(value, after), max) == value <==> |value| == max && Backslashes(value)
    decreases |value|
  {
    var t := AtValue(value, after);
    var rest := extra[1..] + t;
    assert extra + t == ['\\'] + rest;
    ScannedCons('\\', rest, max);
    if value == "" || max == 0 {
    } else {
      ConsEqual('\\', Scanned(rest, max - 1), value);
      BackslashesCons(value);
      if value[0] == '\\' {
        var more := extra[1..] + ['\\', '\\'];
        PendingMore(extra[1..], value, after);
        BehindBackslashes(more, value[1..], after, max - 1);
      }
    }
  }

  /** A backslash at the front of a value becomes two more pending ones. */
  lemma PendingMore(pending: string, value: string, after: string)
    requires value != "" && value[0] == '\\'
    ensures pending + AtValue(value, after) == pending + ['\\', '\\'] + AtValue(value[1..], after)
  {
    AtValueCons(value, after);
  }

  lemma {:induction false} ValueSurvives(value: string, after: string, max: nat)
    ensures Scanned(AtValue(value, after), max) == value <==> Survives(value, max)
    decreases |value|
  {
    if value == "" {
      AtEmptyValue(after);
      ScannedCons('"', CString(after), max);
    } else if value[0] == '\\' {
      BackslashSurvives(value, after, max);
    } else {
      var c, v := value[0], value[1..];
      var t := AtValue(v, after);
      assert c in value;
      AtValueCons(value, after);
      if c == '"' {
        ScannedCons('\\', [c] + t, max);
      } else if c != '\0' {
        ScannedCons(c, t, max);
        if c != '\n' && max > 0 {
          ConsEqual(c, Scanned(t, max - 1), value);
          ValueSurvives(v, after, max - 1);
          SurvivesTail(value, max);
        }
      }
    }
  }

  lemma BackslashSurvives(value: string, after: string, max: nat)
    requires value != "" && value[0] == '\\'
    ensures Scanned(AtValue(value, after), max) == value <==> Survives(value, max)
  {
    var v := value[1..];
    var t := ['\\'] + AtValue(v, after);
    AtValueCons(value, after);
    ScannedCons('\\', t, max);
    assert value == [value[0]] + v;
    if max > 0 {
      ConsEqual('\\', Scanned(t, max - 1), value);
      BehindBackslashes(['\\'], v, after, max - 1);
    }
    LeadingBackslash(value, max);
  }

  lemma LeadingBackslash(value: string, max: nat)
    requires value != "" && value[0] == '\\'
    ensures Survives(value, max) <==> |value| == max && Backslashes(value)
  {
  }

  lemma SurvivesTail(value: string, max: nat)
    requires value != "" && max > 0 && !Stops(value[0]) && value[0] != '\\'
    ensures Survives(value, max) <==> Survives(value[1..], max - 1)
  {
  }

  lemma {:induction false} WordEnds(w: string, rest: string, max: nat)
    requires |w| <= max && (forall c | c in w :: !IsSpace(c)) && rest != "" && IsSpace(rest[0])
    ensures WordLength(w + rest, max) == |w|
  {
    if w == "" {
      assert w + rest == rest;
    } else {
      assert w[0] in w && (w + rest)[1..] == w[1..] + rest;
      WordEnds(w[1..], rest, max - 1);
    }
  }

  /** Skipping one blank before something that is not white space. */
  lemma SkipOne(s: string)
    requires s != "" && !IsSpace(s[0])
    ensures SkipSpace([' '] + s) == s
  {
  }

  lemma ScanHead(ups: string, name: string, t: string)
    requires Word(ups) && Word(name)
    ensures ScanVar(RenderHead(ups, name) + t) == ScanValue(name, ['"'] + t)
  {
    var quoted := ['"'] + t;
    var atName := name + ([' '] + quoted);
    var atUps := ups + ([' '] + atName);
    assert RenderHead(ups, name) + t == VAR + ([' '] + atUps);
    assert ups[0] in ups && name[0] in name;
    SkipOne(atUps);
    SkipOne(atName);
    SkipOne(quoted);
    WordEnds(ups, [' '] + atName, WIDTH);
    WordEnds(name, [' '] + quoted, WIDTH);
    var line := VAR + ([' '] + atUps);
    assert line[..|VAR|] == VAR && line[|VAR|..] == [' '] + atUps;
    assert atUps[|ups|..] == [' '] + atName;
    assert atName[..|name|] == name && atName[|name|..] == [' '] + quoted;
  }

  /** One rendered variable, whatever follows it, is read back exactly when its value is not empty and
      survives: for values without quotes, backslashes, newlines and NULs, when it fits the field. */
  lemma LineReadsBack(ups: string, v: Variable, after: string)
    requires Word(ups) && Word(v.name)
    ensures var r := ScanVar(CString(RenderLine(ups, v) + after));
      (r == Some(v) <==> v.value != "" && Survives(v.value, 255)) && (r.Some? ==> r.value.name == v.name)
  {
    var head, t := RenderHead(ups, v.name), AtValue(v.value, after);
    assert RenderLine(ups, v) + after == head + (Escape(v.value) + ("\"" + after));
    CStringHead(head, Escape(v.value) + ("\"" + after));
    ScanHead(ups, v.name, t);
    ValueSurvives(v.value, after, WIDTH);
    assert (['"'] + t)[1..] == t;
    if Scanned(t, WIDTH) == v.value && v.value != "" {
      assert ScanValue(v.name, ['"'] + t).value == v;
    }
  }

  /** A variable the text protocol carries faithfully. */
  predicate Carried(v: Variable) {
    v.value != "" && Survives(v.value, 255)
  }

  /** A variable that takes one line. */
  predicate Plain(v: Variable) {
    Word(v.name) && OneLine(v.value)
  }

  function RenderLines(ups: string, vs: seq<Variable>): (lines: seq<string>)
    ensures |lines| == |vs|
  {
    if vs == [] then [] else [RenderLine(ups, vs[0])] + RenderLines(ups, vs[1..])
  }

  /** The variables as a map; a later one replaces an earlier one of the same name. */
  function Overlay(vars: map<string, string>, vs: seq<Variable>): map<string, string>
    decreases |vs|
  {
    if vs == [] then vars else Overlay(vars[vs[0].name := vs[0].value], vs[1..])
  }

  lemma {:induction false} EscapeOneLine(value: string)
    requires OneLine(value)
    ensures OneLine(Escape(value))
  {
    if value == "" {
    } else {
      assert value[0] in value && forall c | c in value[1..] :: c in value;
      EscapeOneLine(value[1..]);
    }
  }

  lemma LineIsOneLine(ups: string, v: Variable)
    requires Word(ups) && Plain(v)
    ensures OneLine(RenderLine(ups, v)) && StartsWith(RenderLine(ups, v), VAR)
  {
    EscapeOneLine(v.value);
    var line := RenderLine(ups, v);
    assert forall c | c in ups + v.name :: c != '\n';
    assert line[..|VAR|] == VAR;
  }

  /** The scan takes the lines one by one; each gives its variable, another value under the same name, or
      nothing. */
  lemma OneLineParsed(ups: string, vs: seq<Variable>, vars: map<string, string>) returns (r: Option<Variable>)
    requires Word(ups) && vs != [] && Plain(vs[0])
    ensures VarsFrom(JoinLines(RenderLines(ups, vs)), vars) ==
      VarsFrom(JoinLines(RenderLines(ups, vs[1..])), Collect(vars, r))
    ensures (r == Some(vs[0]) <==> Carried(vs[0])) && (r.Some? ==> r.value.name == vs[0].name)
  {
    var lines := RenderLines(ups, vs);
    var rest := JoinLines(lines[1..]);
    var data := JoinLines(lines);
    var after := if |vs| == 1 then "" else "\n" + rest;
    assert data == lines[0] + after;
    assert lines[0] == RenderLine(ups, vs[0]) && lines[1..] == RenderLines(ups, vs[1..]);
    LineIsOneLine(ups, vs[0]);
    LineReadsBack(ups, vs[0], after);
    VarsFromLine(data, vars);
    NextAfter(lines[0], rest, |vs| == 1);
    r := ScanVar(CString(data));
  }

  lemma {:induction false} LinesParse(ups: string, vs: seq<Variable>, vars: map<string, string>)
    requires Word(ups) && forall v | v in vs :: Plain(v) && Carried(v)
    ensures VarsFrom(JoinLines(RenderLines(ups, vs)), vars) == Overlay(vars, vs)
    decreases |vs|
  {
    if vs == [] {
    } else {
      assert Plain(vs[0]);
      var r := OneLineParsed(ups, vs, vars);
      assert forall v | v in vs[1..] :: v in vs;
      LinesParse(ups, vs[1..], vars[vs[0].name := vs[0].value]);
    }
  }

  /** A variable that is not carried is missing from what is read, or has another value there. */
  lemma {:induction false} LineLost(ups: string, vs: seq<Variable>, vars: map<string, string>, lost: Variable)
    requires Word(ups) && !Carried(lost) && forall v | v in vs :: Plain(v) && (v.name == lost.name ==> v == lost)
    requires lost.name in vars ==> vars[lost.name] != lost.value
    ensures var read := VarsFrom(JoinLines(RenderLines(ups, vs)), vars);
      lost.name in read ==> read[lost.name] != lost.value
    decreases |vs|
  {
    if vs == [] {
    } else {
      assert vs[0] in vs;
      var r := OneLineParsed(ups, vs, vars);
      assert forall v | v in vs[1..] :: v in vs;
      LineLost(ups, vs[1..], Collect(vars, r), lost);
    }
  }

  lemma NextAfter(line: string, rest: string, last: bool)
    requires OneLine(line) && (last ==> rest == "")
    ensures LineAfter(line + if last then "" else "\n" + rest) == rest
  {
    var data := line + if last then "" else "\n" + rest;
    if last {
      assert data == line + "" == line;
      NoNewlineYet(line, "");
    } else {
      assert data[..|line|] == line;
      FirstNewline(data, |line|);
    }
  }

  lemma {:induction false} OverlayLists(vars: map<string, string>, vs: seq<Variable>, m: map<string, string>)
    requires forall v | v in vs :: v.name in m && m[v.name] == v.value
    requires forall k | k in vars :: k in m && m[k] == vars[k]
    requires forall k | k in m :: k in vars || exists v | v in vs :: v.name == k
    ensures Overlay(vars, vs) == m
    decreases |vs|
  {
    if vs == [] {
    } else {
      var v := vs[0];
      assert forall w | w in vs :: w == v || w in vs[1..];
      OverlayLists(vars[v.name := v.value], vs[1..], m);
    }
  }

  /** `vs` lists the entries of `m`, in some order. */
  predicate Lists(vs: seq<Variable>, m: map<string, string>) {
    && (forall v | v in vs :: v.name in m && m[v.name] == v.value)
    && forall k | k in m :: exists v | v in vs :: v.name == k
  }

  function ListSubject(ups: string): string {
    "LIST VAR " + ups
  }

  /** LIST VAR round trip: a map listed in any order and received in any pieces is read back as the same map
      if and only if each of its values is carried and the size limit lets the block through. */
  lemma ListVarRoundTrip(ups: string, vs: seq<Variable>, m: map<string, string>, schedule: seq<nat>)
    requires Word(ups) && Lists(vs, m) && forall v | v in vs :: Plain(v)
    ensures |BEGIN + ListSubject(ups)| < BUFFER_SIZE
    ensures Parsed(Exchange(Stream(RenderBlock(ListSubject(ups), RenderLines(ups, vs)), schedule)).text) == m <==>
      (forall v | v in vs :: Carried(v)) && WithinLimit(ListSubject(ups), RenderLines(ups, vs), schedule)
  {
    var subject, lines := ListSubject(ups), RenderLines(ups, vs);
    assert forall c | c in ups :: c != '\n';
    assert OneLine(subject);
    if vs == [] {
      NothingListed(subject, m, schedule);
    } else {
      ListingAnswered(ups, vs, schedule);
      MapReadBack(ups, vs, m);
      assert vs[0] in vs;
    }
  }

  /** What a listing of something is answered with, and read as. */
  lemma ListingAnswered(ups: string, vs: seq<Variable>, schedule: seq<nat>)
    requires Word(ups) && vs != [] && (forall v | v in vs :: Plain(v)) && |BEGIN + ListSubject(ups)| < BUFFER_SIZE
    requires OneLine(ListSubject(ups))
    ensures Parsed(Exchange(Stream(RenderBlock(ListSubject(ups), RenderLines(ups, vs)), schedule)).text) ==
      if WithinLimit(ListSubject(ups), RenderLines(ups, vs), schedule) then
        VarsFrom(JoinLines(RenderLines(ups, vs)), map[])
      else map[]
  {
    var subject, lines := ListSubject(ups), RenderLines(ups, vs);
    VarLines(ups, vs);
    VarsAreNotEnds(lines, EndLine(subject));
    RecognisedOutcome(subject, lines, schedule);
    NotAnError(lines);
    TooLongIsAnError();
  }

  lemma TooLongIsAnError()
    ensures Parsed(TOO_LONG) == map[]
  {
    assert StartsWith(TOO_LONG, "ERR ");
  }

  /** The lines of a listing give back its map if and only if every value is carried. */
  lemma MapReadBack(ups: string, vs: seq<Variable>, m: map<string, string>)
    requires Word(ups) && Lists(vs, m) && forall v | v in vs :: Plain(v)
    ensures VarsFrom(JoinLines(RenderLines(ups, vs)), map[]) == m <==> forall v | v in vs :: Carried(v)
  {
    if forall v | v in vs :: Carried(v) {
      LinesParse(ups, vs, map[]);
      OverlayLists(map[], vs, m);
    } else {
      var lost :| lost in vs && !Carried(lost);
      LineLost(ups, vs, map[], lost);
    }
  }

  /** A listing of nothing fails, which reads the same. */
  lemma NothingListed(subject: string, m: map<string, string>, schedule: seq<nat>)
    requires OneLine(subject) && |BEGIN + subject| < BUFFER_SIZE && Lists([], m)
    ensures |RenderBlock(subject, [])| < RESPONSE_LIMIT
    ensures Parsed(Exchange(Stream(RenderBlock(subject, []), schedule)).text) == m
  {
    var all := RenderBlock(subject, []);
    BlockSettled(subject, []);
    EmptyBlock(EndLine(subject));
    AnswerIgnoresSplits(Stream(all, schedule));
    assert StartsWith(RECEIVE_FAILED, "ERR ");
    assert m == map[];
  }

  lemma {:induction false} VarLines(ups: string, vs: seq<Variable>)
    requires Word(ups) && forall v | v in vs :: Plain(v)
    ensures forall l | l in RenderLines(ups, vs) :: OneLine(l) && StartsWith(l, VAR)
    decreases |vs|
  {
    if vs == [] {
    } else {
      assert Plain(vs[0]);
      LineIsOneLine(ups, vs[0]);
      assert forall v | v in vs[1..] :: v in vs;
      VarLines(ups, vs[1..]);
    }
  }

  lemma VarsAreNotEnds(lines: seq<string>, endLine: string)
    requires forall l | l in lines :: StartsWith(l, VAR)
    requires endLine != "" && endLine[0] == 'E'
    ensures forall i | 1 <= i < |lines| :: !StartsWith(lines[i], endLine)
  {
    forall i | 1 <= i < |lines| ensures !StartsWith(lines[i], endLine) {
      assert lines[i] in lines;
      assert lines[i][..|VAR|][0] == lines[i][0];
      if |lines[i]| >= |endLine| {
        assert lines[i][..|endLine|][0] == lines[i][0];
      }
    }
  }

  lemma NotAnError(lines: seq<string>)
    requires lines != [] && forall l | l in lines :: StartsWith(l, VAR)
    ensures !IsError(JoinLines(lines))
  {
    var text := JoinLines(lines);
    assert lines[0] in lines;
    assert lines[0][..|VAR|][0] == lines[0][0] == text[0];
    if |text| >= 4 {
      assert text[..4][0] == text[0];
    }
  }

  lemma {:induction false} ScannedFits(t: string, max: nat)
    ensures |Scanned(t, max)| <= max && '\n' !in Scanned(t, max)
    decreases max
  {
    if max == 0 || t == "" || t[0] == '\n' || t[0] == '"' {
    } else {
      assert Scanned(t, max) == [t[0]] + Scanned(t[1..], max - 1);
      ScannedFits(t[1..], max - 1);
    }
  }

  /** Whatever a server answers, the value taken from it fits the field and stays on one line. */
  lemma ValueFits(response: string)
    ensures |ValueOf(response)| <= 255 && '\n' !in ValueOf(response)
  {
    var t := CString(response);
    if !IsError(response) && ScanVar(t).Some? {
      var atUps := SkipSpace(t[|VAR|..]);
      var atName := SkipSpace(atUps[WordLength(atUps, WIDTH)..]);
      var atValue := SkipSpace(atName[WordLength(atName, WIDTH)..]);
      ScannedFits(atValue[1..], WIDTH);
    }
  }

  lemma {:induction false} EscapeLength(value: string)
    ensures |Escape(value)| <= 2 * |value|
  {
    if value == "" {
    } else {
      EscapeLength(value[1..]);
    }
  }

  /** What is read from a rendered line is what the scanner makes of the escaped value. */
  lemma ValueOfLine(ups: string, v: Variable)
    requires Word(ups) && Word(v.name)
    ensures ValueOf(RenderLine(ups, v)) == Scanned(AtValue(v.value, ""), WIDTH)
  {
    var head, t, line := RenderHead(ups, v.name), AtValue(v.value, ""), RenderLine(ups, v);
    assert line == head + (Escape(v.value) + ("\"" + ""));
    assert line[0] == 'V';
    CStringHead(head, Escape(v.value) + ("\"" + ""));
    ScanHead(ups, v.name, t);
    assert (['"'] + t)[1..] == t;
  }

  lemma LineAnswered(line: string, schedule: seq<nat>)
    requires OneLine(line) && |line| < BUFFER_SIZE && !StartsWith(line, BEGIN)
    ensures Exchange(Stream(line + "\n", schedule)).text == line
  {
    var all := line + "\n";
    assert all[..|line|] == line;
    FirstNewline(all, |line|);
    AnswerIgnoresSplits(Stream(all, schedule));
  }

  /** GET VAR round trip: the answer for a variable, received in any pieces, gives back its value if and
      only if the value survives the text protocol. The empty value does, but an error reads the same. */
  lemma GetVarRoundTrip(ups: string, v: Variable, schedule: seq<nat>)
    requires Word(ups) && Word(v.name)
    ensures ValueOf(Exchange(Stream(RenderLine(ups, v) + "\n", schedule)).text) == v.value <==> Survives(v.value, 255)
  {
    var text := Exchange(Stream(RenderLine(ups, v) + "\n", schedule)).text;
    ValueFits(text);
    if |v.value| > WIDTH {
    } else if '\n' in v.value {
      assert Stops('\n');
    } else {
      EscapeLength(v.value);
      PlainLine(ups, v);
      LineAnswered(RenderLine(ups, v), schedule);
      ValueOfLine(ups, v);
      ValueSurvives(v.value, "", WIDTH);
    }
  }

  lemma PlainLine(ups: string, v: Variable)
    requires Word(ups) && Word(v.name) && '\n' !in v.value && |Escape(v.value)| <= 2 * WIDTH
    ensures var line := RenderLine(ups, v); OneLine(line) && |line| < BUFFER_SIZE && !StartsWith(line, BEGIN)
  {
    EscapeOneLine(v.value);
    var line := RenderLine(ups, v);
    assert forall c | c in ups + v.name :: c != '\n';
    assert line[0] == 'V' != BEGIN[0];
  }
}
