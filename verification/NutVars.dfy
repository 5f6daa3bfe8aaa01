/** `get_ups_vars` and `get_ups_var`: scanning VAR lines, and the round trip through a LIST VAR block. */
module NutVars {
  import opened Bytes
  import opened NutClient

  /** The widest field the scanner stores. */
  const WIDTH := 255

  predicate IsSpace(c: char) {
    c == ' ' || c == '\t' || c == '\n' || c == '\U{0B}' || c == '\U{0C}' || c == '\r'
  }

  /** White space in a scan format skips any amount of white space, newlines included. */
  function SkipSpace(s: string): string {
    if s != "" && IsSpace(s[0]) then SkipSpace(s[1..]) else s
  }

  /** The length of the word at the front of `s`, at most `max` characters. */
  function WordLength(s: string, max: nat): (n: nat)
    ensures n <= |s| && n <= max
  {
    if max == 0 || s == "" || IsSpace(s[0]) then 0 else 1 + WordLength(s[1..], max - 1)
  }

  /** The length of the run of characters other than newline and quote. */
  function ValueLength(s: string, max: nat): (n: nat)
    ensures n <= |s| && n <= max
  {
    if max == 0 || s == "" || s[0] == '\n' || s[0] == '"' then 0 else 1 + ValueLength(s[1..], max - 1)
  }

  /** A C string ends at its first NUL. */
  function CString(s: string): string {
    if s == "" || s[0] == '\0' then "" else [s[0]] + CString(s[1..])
  }

  datatype Variable = Variable(name: string, value: string)

  const VAR := "VAR"

  /** `sscanf(s, "VAR %255s %255s \"%255[^\n\"]\"", ...) == 3`. The closing quote is not needed for the
      three conversions to count. */
  function ScanVar(s: string): Option<Variable> {
    if !StartsWith(s, VAR) then None else ScanUps(SkipSpace(s[|VAR|..]))
  }

  function ScanUps(s: string): Option<Variable> {
    var n := WordLength(s, WIDTH);
    if n == 0 then None else ScanName(SkipSpace(s[n..]))
  }

  function ScanName(s: string): Option<Variable> {
    var n := WordLength(s, WIDTH);
    if n == 0 then None else ScanValue(s[..n], SkipSpace(s[n..]))
  }

  function ScanValue(name: string, s: string): Option<Variable> {
    if s == "" || s[0] != '"' then None else
    var n := ValueLength(s[1..], WIDTH);
    if n == 0 then None else Some(Variable(name, s[1..][..n]))
  }

  function LineAfter(data: string): string {
    if NewlineAt(data) == |data| then "" else data[NewlineAt(data) + 1..]
  }

  /** The scan loop from the current line on: scan, then skip to the next line. */
  function VarsFrom(data: string, vars: map<string, string>): map<string, string>
    decreases |data|
  {
    if data == "" then vars
    else
      var more := Collect(vars, ScanVar(CString(data)));
      VarsFrom(LineAfter(data), more)
  }

  function Collect(vars: map<string, string>, v: Option<Variable>): map<string, string> {
    match v
    case None => vars
    case Some(v) => vars[v.name := v.value]
  }

  predicate IsError(response: string) {
    StartsWith(response, "ERR ")
  }

  /** What `get_ups_vars` makes of a response. */
  function Parsed(data: string): map<string, string> {
    if IsError(data) then map[] else VarsFrom(data, map[])
  }

  /** Where the line after the one at `start` begins. */
  method NextLine(data: string, start: nat) returns (next: nat)
    requires start < |data|
    ensures next == start + NewlineAt(data[start..]) + 1
  {
    ghost var line := data[start..];
    ghost var p := NewlineAt(line);
    assert forall k | 0 <= k < p :: line[..p][k] != '\n' && data[start + k] == line[k];
    next := start;
    while next < |data| && data[next] != '\n'
      invariant start <= next <= start + p
      invariant next < start + p ==> data[next] == line[..p][next - start]
    {
      assert data[next] == line[next - start];
      next := next + 1;
    }
    next := next + 1;
  }

  /** Scanning from `start` on, where `start` may be one past the end. */
  function VarsAt(data: string, start: nat, vars: map<string, string>): map<string, string> {
    if start > |data| then vars else VarsFrom(data[start..], vars)
  }

  lemma VarsStep(data: string, start: nat, vars: map<string, string>, more: map<string, string>)
    requires start < |data| && more == Collect(vars, ScanVar(CString(data[start..])))
    ensures VarsAt(data, start, vars) == VarsAt(data, start + NewlineAt(data[start..]) + 1, more)
  {
    var line := data[start..];
    var p := NewlineAt(line);
    VarsFromLine(line, vars);
    if p < |line| {
      assert LineAfter(line) == data[start + p + 1..];
    }
  }

  lemma VarsFromLine(line: string, vars: map<string, string>)
    requires line != ""
    ensures VarsFrom(line, vars) == VarsFrom(LineAfter(line), Collect(vars, ScanVar(CString(line))))
  {
  }

  method ParseVars(data: string) returns (vars: map<string, string>)
    ensures vars == Parsed(data)
  {
    if IsError(data) {
      return map[];
    }
    vars := ParseLines(data);
  }

  /** The scanning loop. */
  method ParseLines(data: string) returns (vars: map<string, string>)
    ensures vars == VarsFrom(data, map[])
  {
    vars := map[];
    var start: nat := 0;
    ghost var goal := VarsFrom(data, vars);
    ScanAll(data, vars);
    while start < |data|
      invariant VarsAt(data, start, vars) == goal
    {
      start, vars := ParseLine(data, start, vars);
    }
    ScannedAll(data, start, vars);
  }

  lemma ScanAll(data: string, vars: map<string, string>)
    ensures VarsAt(data, 0, vars) == VarsFrom(data, vars)
  {
    assert data[0..] == data;
  }

  lemma ScannedAll(data: string, start: nat, vars: map<string, string>)
    requires start >= |data|
    ensures VarsAt(data, start, vars) == vars
  {
    assert start == |data| ==> data[start..] == "";
  }

  /** One line: what it says, and where the next one begins. */
  method ParseLine(data: string, start: nat, vars: map<string, string>) returns (next: nat, more: map<string, string>)
    requires start < |data|
    ensures next > start && VarsAt(data, next, more) == VarsAt(data, start, vars)
  {
    var v := ScanVar(CString(data[start..]));
    more := if v.Some? then vars[v.value.name := v.value.value] else vars;
    VarsStep(data, start, vars, more);
    next := NextLine(data, start);
  }

  /** `get_ups_vars` */
  method GetUpsVars(client: NUTClient, canConnect: bool, canSend: bool, dialled: Stream)
    returns (vars: map<string, string>)
    modifies client, client.socket
    ensures var ready := (old(client.connected) || canConnect) && canSend;
      vars == if !ready then map[] else Parsed(Exchange(old(client.Source(dialled))).text)
  {
    var data := client.SendCommand(canConnect, canSend, dialled);
    vars := ParseVars(data);
  }

  /** What `get_ups_var` makes of a response. */
  function ValueOf(response: string): string {
    if IsError(response) then "" else
    match ScanVar(CString(response))
    case None => ""
    case Some(v) => v.value
  }

  /** `get_ups_var` */
  method GetUpsVar(client: NUTClient, canConnect: bool, canSend: bool, dialled: Stream) returns (value: string)
    modifies client, client.socket
    ensures var ready := (old(client.connected) || canConnect) && canSend;
      value == if !ready then "" else ValueOf(Exchange(old(client.Source(dialled))).text)
  {
    var response := client.SendCommand(canConnect, canSend, dialled);
    if IsError(response) {
      return "";
    }
    var v := ScanVar(CString(response));
    value := if v.Some? then v.value.value else "";
  }
}
