/** The configuration file: lines read by `fgets`, a cursor-based line parser, and a map from
    lower-cased "section.name" keys to lists of values. */
module Configs {

  const MAX_LINE: nat := 1024

  /** The C string at `s`: past its end, and at any NUL inside it, reading stops. */
  function At(s: string, i: nat): char {
    if i < |s| then s[i] else '\0'
  }

  predicate IsSpace(c: char) {
    c == ' ' || ('\t' <= c <= '\r')
  }

  function ToLower(c: char): char {
    if 'A' <= c <= 'Z' then (c as int + 32) as char else c
  }

  function Lower(s: string): string {
    seq(|s|, i requires 0 <= i < |s| => ToLower(s[i]))
  }

  function MakeKey(section: string, name: string): string {
    Lower(section + "." + name)
  }

  /** What ends a token. */
  datatype Stop = AtChar(c: char) | AtSpace | AtSpaceOrHash

  predicate Stops(stop: Stop, c: char) {
    match stop
    case AtChar(d) => c == d
    case AtSpace => IsSpace(c)
    case AtSpaceOrHash => IsSpace(c) || c == '#'
  }

  function PastSpace(s: string, i: nat): (j: nat)
    ensures i <= j && (i <= |s| ==> j <= |s|)
    decreases |s| - i
  {
    if i < |s| && IsSpace(s[i]) then PastSpace(s, i + 1) else i
  }

  /** The first place at or after `i` that holds a NUL or what stops the scan. */
  function Find(s: string, i: nat, stop: Stop): (j: nat)
    ensures i <= j && (i <= |s| ==> j <= |s|)
    decreases |s| - i
  {
    if i < |s| && s[i] != '\0' && !Stops(stop, s[i]) then Find(s, i + 1, stop) else i
  }

  function Stripped(s: string, begin: nat, end: nat): string
    requires begin <= end <= |s|
    decreases end - begin
  {
    if begin < end && IsSpace(s[begin]) then Stripped(s, begin + 1, end)
    else if begin < end && IsSpace(s[end - 1]) then Stripped(s, begin, end - 1)
    else s[begin..end]
  }

  /** `TillEnd` and `TillSpace`: the token, and where the cursor is left. */
  function Token(s: string, i: nat, stop: Stop): (string, nat)
    requires i <= |s|
  {
    var from := PastSpace(s, i);
    var end := Find(s, from, stop);
    (Stripped(s, from, end), end)
  }

  /** `Till(c)`: as a token, but nothing if `c` does not occur. */
  function TillFrom(s: string, i: nat, c: char): (string, nat)
    requires i <= |s|
  {
    var from := PastSpace(s, i);
    if At(s, Find(s, from, AtChar(c))) != c then ("", from) else Token(s, i, AtChar(c))
  }

  type Values = seq<string>
  type Table = map<string, Values>

  datatype State = State(section: string, name: string, table: Table, error: bool)

  const EMPTY := State("", "", map[], false)

  /** The list under `key`, created if absent, gains a value at its end. */
  function Put(table: Table, key: string, value: string): Table {
    table[key := (if key in table then table[key] else []) + [value]]
  }

  function Pushed(st: State, value: string): State {
    st.(table := Put(st.table, MakeKey(st.section, st.name), value))
  }

  /** One line of `Parse`. */
  function ParseLine(st: State, line: string): State {
    var i := PastSpace(line, 0);
    var c := At(line, i);
    if c == '#' || c == '\0' then st
    else if c == '[' then
      var (section, j) := TillFrom(line, i + 1, ']');
      st.(section := section, name := "", error := At(line, PastSpace(line, j)) != ']')
    else if IsSpace(line[0]) then
      if st.name != "" then Pushed(st, Token(line, i, AtSpaceOrHash).0) else st.(error := true)
    else ParsePair(st, line, i)
  }

  /** A line that gives a name and a value, which begins at `i`. */
  function ParsePair(st: State, line: string, i: nat): State
    requires i <= |line|
  {
    var (name, j) := TillFrom(line, i, '=');
    if At(line, PastSpace(line, j)) == '=' then ParseValue(st, line, name, PastSpace(line, j))
    else
      var (name, j) := TillFrom(line, i, ':');
      if At(line, PastSpace(line, j)) == ':' then ParseValue(st, line, name, PastSpace(line, j))
      else st.(name := name, error := true)
  }

  function ParseValue(st: State, line: string, name: string, at: nat): State
    requires at < |line|
  {
    Pushed(st.(name := name), Token(line, at + 1, AtSpace).0)
  }

  /** The loop of `Parse`: it stops after the first erroneous line, whose number it returns. */
  function ParseLines(st: State, lines: seq<string>): (State, nat)
    requires !st.error
    ensures var (t, n) := ParseLines(st, lines); n <= |lines| && (t.error <==> n > 0)
    decreases |lines|
  {
    if lines == [] then (st, 0)
    else
      var next := ParseLine(st, lines[0]);
      if next.error then (next, 1)
      else
        var (t, n) := ParseLines(next, lines[1..]);
        (t, if n > 0 then n + 1 else 0)
  }

  function LineEnd(text: string, i: nat): (j: nat)
    requires i < |text|
    ensures 0 < j <= |text| - i
    decreases |text| - i
  {
    if text[i] == '\n' || i + 1 == |text| then 1
    else
      var j := LineEnd(text, i + 1);
      j + 1
  }

  /** `fgets` reads up to and including a newline, at most `MAX_LINE - 1` characters. */
  function Fetched(text: string): (n: nat)
    requires text != ""
    ensures 0 < n <= |text|
  {
    var n := LineEnd(text, 0);
    if n < MAX_LINE then n else MAX_LINE - 1
  }

  function Lines(text: string): seq<string>
    decreases |text|
  {
    if text == "" then [] else [text[..Fetched(text)]] + Lines(text[Fetched(text)..])
  }

  /** A `Parse` of a whole file. */
  function Parse(text: string): (State, nat) {
    ParseLines(EMPTY, Lines(text))
  }

  // ---- Where the scans land ----

  lemma {:induction false} SkipLands(s: string, i: nat, j: nat)
    requires i <= j <= |s|
    requires forall k :: i <= k < j ==> IsSpace(s[k])
    requires j < |s| ==> !IsSpace(s[j])
    ensures PastSpace(s, i) == j
    decreases j - i
  {
    if i < j { SkipLands(s, i + 1, j); }
  }

  lemma {:induction false} FindLands(s: string, i: nat, j: nat, stop: Stop)
    requires i <= j <= |s|
    requires forall k :: i <= k < j ==> s[k] != '\0' && !Stops(stop, s[k])
    requires j < |s| ==> s[j] == '\0' || Stops(stop, s[j])
    ensures Find(s, i, stop) == j
    decreases j - i
  {
    if i < j { FindLands(s, i + 1, j, stop); }
  }

  /** Nothing to strip at either end. */
  predicate Trimmed(s: string) {
    s == "" || (!IsSpace(s[0]) && !IsSpace(s[|s| - 1]))
  }

  predicate Unbroken(s: string) {
    forall c :: c in s ==> !IsSpace(c) && c != '\0'
  }

  lemma {:induction false} StripLands(s: string, begin: nat, last: nat, end: nat)
    requires begin <= last <= end <= |s|
    requires begin < last ==> !IsSpace(s[begin]) && !IsSpace(s[last - 1])
    requires forall k :: last <= k < end ==> IsSpace(s[k])
    ensures Stripped(s, begin, end) == s[begin..last]
    decreases end - begin
  {
    if begin < last < end {
      StripLands(s, begin, last, end - 1);
    } else if begin == last < end {
      StripLands(s, begin + 1, last + 1, end);
    }
  }

  lemma TillLands(line: string, i: nat, from: nat, last: nat, at: nat, c: char)
    requires i <= from <= last <= at < |line| && line[at] == c && !IsSpace(c)
    requires forall k :: i <= k < from ==> IsSpace(line[k])
    requires forall k :: from <= k < at ==> line[k] != c && line[k] != '\0'
    requires !IsSpace(line[from]) && (from < last ==> !IsSpace(line[last - 1]))
    requires forall k :: last <= k < at ==> IsSpace(line[k])
    ensures TillFrom(line, i, c) == (line[from..last], at)
    ensures PastSpace(line, i) == from && PastSpace(line, at) == at
  {
    SkipLands(line, i, from);
    FindLands(line, from, at, AtChar(c));
    StripLands(line, from, last, at);
    SkipLands(line, at, at);
  }

  // ---- One line ----

  predicate NameOk(name: string) {
    && name != "" && Trimmed(name) && name[0] !in "#["
    && '=' !in name && '\0' !in name && '\n' !in name
  }

  predicate TitleOk(title: string) {
    Trimmed(title) && ']' !in title && '\0' !in title && '\n' !in title
  }

  /** A value that may stand alone on an indented line. */
  predicate Continuable(value: string) {
    value != "" && '#' !in value && value[0] != '['
  }

  /** White space within a line. */
  predicate Blank(s: string) {
    forall c :: c in s ==> IsSpace(c) && c != '\n'
  }

  /** The parts of a line that carry no meaning: its indentation, what stands before and after a
      separator or around a title, and whatever follows. */
  datatype Layout = Layout(indent: string, gap: string, lead: string, rest: string)

  predicate LayoutOk(l: Layout) {
    Blank(l.indent) && Blank(l.gap) && Blank(l.lead) && '\n' !in l.rest
  }

  /** What may follow a value that ends at white space. */
  predicate Follows(rest: string, value: string) {
    && (rest == "" || IsSpace(rest[0]))
    && (value == "" ==> Blank(rest))
  }

  function HeaderText(title: string, l: Layout): string {
    (l.indent + "[") + BracketedText(title, l)
  }

  function BracketedText(title: string, l: Layout): string {
    (l.lead + title + l.gap) + "]" + l.rest
  }

  function PairText(name: string, separator: string, value: string, l: Layout): string {
    (name + l.gap) + separator + (l.lead + value + l.rest)
  }

  function IndentedText(value: string, l: Layout): string {
    l.indent + value + l.rest
  }

  const SPACED := Layout("", " ", " ", "")
  const HUGGED := Layout("", "", " ", "")
  const INDENTED := Layout("  ", "", "", "")

  function NamedLine(name: string, value: string): string { PairText(name, "=", value, SPACED) + "\n" }
  function ColonLine(name: string, value: string): string { PairText(name, ":", value, HUGGED) + "\n" }
  function ContinuedLine(value: string): string { IndentedText(value, INDENTED) + "\n" }

  lemma BracketsAreRead(st: State, line: string, open: nat, from: nat, last: nat, close: nat)
    requires !st.error && open < from <= last <= close < |line| && line[open] == '[' && line[close] == ']'
    requires forall k :: 0 <= k < open || open < k < from || last <= k < close ==> IsSpace(line[k])
    requires forall k :: from <= k < close ==> line[k] != ']' && line[k] != '\0'
    requires !IsSpace(line[from]) && (from < last ==> !IsSpace(line[last - 1]))
    ensures ParseLine(st, line) == st.(section := line[from..last], name := "")
  {
    SkipLands(line, 0, open);
    TillLands(line, open + 1, from, last, close, ']');
  }

  /** The places of three parts of a string, which starts at `i` in `line`. */
  lemma PartsArePlaced(line: string, i: nat, a: string, b: string, c: string)
    requires i + |a| + |b| + |c| <= |line| && line[i..i + |a| + |b| + |c|] == a + b + c
    ensures forall k :: i <= k < i + |a| ==> line[k] == a[k - i] && line[k] in a
    ensures forall k :: i + |a| <= k < i + |a| + |b| ==> line[k] == b[k - i - |a|] && line[k] in b
    ensures forall k :: i + |a| + |b| <= k < i + |a| + |b| + |c| ==> line[k] == c[k - i - |a| - |b|] && line[k] in c
  {
    var whole := line[i..i + |a| + |b| + |c|];
    assert forall k :: i <= k < i + |whole| ==> line[k] == whole[k - i];
  }

  /** The two sides of a separator at `|front|`. */
  lemma SidesArePlaced(line: string, front: string, separator: char, back: string)
    requires line == front + [separator] + back + "\n"
    ensures |line| == |front| + |back| + 2 && line[|front|] == separator && line[|line| - 1] == '\n'
    ensures line[..|front|] == front && line[|front| + 1..|line| - 1] == back
  {
  }

  lemma HeaderIsRead(st: State, title: string, l: Layout)
    requires !st.error && TitleOk(title) && LayoutOk(l)
    ensures ParseLine(st, HeaderText(title, l) + "\n") == st.(section := title, name := "")
  {
    var line := HeaderText(title, l) + "\n";
    var open := |l.indent|;
    var from := open + 1 + |l.lead|;
    var last := from + |title|;
    HeaderIsPlaced(title, l);
    hide HeaderText, ParseLine;
    if title == "" {
      BracketsAreRead(st, line, open, last + |l.gap|, last + |l.gap|, last + |l.gap|);
    } else {
      BracketsAreRead(st, line, open, from, last, last + |l.gap|);
    }
  }

  lemma BracketedIsPlaced(title: string, l: Layout)
    ensures var t := BracketedText(title, l) + "\n";
            var from := |l.lead|; var last := from + |title|; var close := last + |l.gap|;
            && close < |t| && t[close] == ']' && t[from..last] == title
            && (forall k :: 0 <= k < from ==> t[k] in l.lead)
            && (forall k :: from <= k < last ==> t[k] in title)
            && (forall k :: last <= k < close ==> t[k] in l.gap)
  {
    var inner := l.lead + title + l.gap;
    var t := inner + [']'] + l.rest + "\n";
    SidesArePlaced(t, inner, ']', l.rest);
    assert t[0..|inner|] == inner;
    PartsArePlaced(t, 0, l.lead, title, l.gap);
    assert t[|l.lead|..|l.lead| + |title|] == title;
  }

  lemma JoinIsPlaced(front: string, back: string, i: nat, j: nat)
    requires i <= j <= |back|
    ensures (front + back)[|front| + i..|front| + j] == back[i..j]
    ensures forall k :: 0 <= k < |front| ==> (front + back)[k] == front[k]
    ensures forall k :: |front| <= k < |front| + |back| ==> (front + back)[k] == back[k - |front|]
  {
  }

  lemma HeaderIsPlaced(title: string, l: Layout)
    ensures var line := HeaderText(title, l) + "\n";
            var open := |l.indent|; var from := open + 1 + |l.lead|;
            var last := from + |title|; var close := last + |l.gap|;
            && close < |line| && line[open] == '[' && line[close] == ']' && line[from..last] == title
            && (forall k :: 0 <= k < open ==> line[k] in l.indent)
            && (forall k :: open < k < from ==> line[k] in l.lead)
            && (forall k :: from <= k < last ==> line[k] in title)
            && (forall k :: last <= k < close ==> line[k] in l.gap)
  {
    hide BracketedText;
    var front, t := l.indent + "[", BracketedText(title, l) + "\n";
    Regroup(front, BracketedText(title, l), "\n");
    BracketedIsPlaced(title, l);
    JoinIsPlaced(front, t, |l.lead|, |l.lead| + |title|);
    assert forall k :: 0 <= k < |l.indent| ==> front[k] == l.indent[k];
  }

  lemma ValueIsRead(line: string, at: nat, lead: string, value: string, rest: string)
    requires at + 1 < |line| && line[at + 1..|line| - 1] == lead + value + rest && line[|line| - 1] == '\n'
    requires Blank(lead) && Unbroken(value) && Follows(rest, value)
    ensures Token(line, at + 1, AtSpace).0 == value
  {
    PartsArePlaced(line, at + 1, lead, value, rest);
    var from := at + 1 + |lead|;
    var end := from + |value|;
    if value == "" {
      SkipLands(line, at + 1, |line|);
      assert line[|line|..|line|] == "";
    } else {
      SkipLands(line, at + 1, from);
      FindLands(line, from, end, AtSpace);
      StripLands(line, from, end, end);
      assert line[from..end] == value;
    }
  }

  /** Where a name may begin. */
  predicate OpensName(c: char) {
    !IsSpace(c) && c !in "#[\0"
  }

  lemma AssignmentIsRead(st: State, line: string, last: nat, at: nat, value: string)
    requires !st.error && 0 < last <= at < |line| && line[at] == '=' && OpensName(line[0])
    requires !IsSpace(line[last - 1]) && forall k :: last <= k < at ==> IsSpace(line[k])
    requires forall k :: 0 <= k < at ==> line[k] != '=' && line[k] != '\0'
    requires Token(line, at + 1, AtSpace).0 == value
    ensures ParseLine(st, line) == Pushed(st.(name := line[..last]), value)
  {
    hide Token;
    TillLands(line, 0, 0, last, at, '=');
  }

  lemma ColonAssignmentIsRead(st: State, line: string, last: nat, at: nat, value: string)
    requires !st.error && 0 < last <= at < |line| && line[at] == ':' && OpensName(line[0])
    requires !IsSpace(line[last - 1]) && forall k :: last <= k < at ==> IsSpace(line[k])
    requires forall k :: 0 <= k < at ==> line[k] != ':' && line[k] != '\0'
    requires '=' !in line && Token(line, at + 1, AtSpace).0 == value
    ensures ParseLine(st, line) == Pushed(st.(name := line[..last]), value)
  {
    hide Token;
    TillLands(line, 0, 0, last, at, ':');
    assert TillFrom(line, 0, '=').0 == "" && TillFrom(line, 0, '=').1 == 0;
  }

  /** The two sides of a name line. */
  lemma PairSides(name: string, separator: char, value: string, l: Layout)
    ensures var line := PairText(name, [separator], value, l) + "\n"; var at := |name| + |l.gap|;
            && at + 1 < |line| && line[at] == separator && line[|line| - 1] == '\n'
            && line[..at] == name + l.gap && line[at + 1..|line| - 1] == l.lead + value + l.rest
  {
    SidesArePlaced(PairText(name, [separator], value, l) + "\n", name + l.gap, separator, l.lead + value + l.rest);
  }

  lemma PairValueIsRead(name: string, separator: char, value: string, l: Layout)
    requires Unbroken(value) && LayoutOk(l) && Follows(l.rest, value)
    ensures Token(PairText(name, [separator], value, l) + "\n", |name| + |l.gap| + 1, AtSpace).0 == value
  {
    hide Unbroken, Follows, Token, PairText;
    PairSides(name, separator, value, l);
    ValueIsRead(PairText(name, [separator], value, l) + "\n", |name| + |l.gap|, l.lead, value, l.rest);
  }

  /** Where the parts of a name line are. */
  lemma PairIsPlaced(name: string, separator: char, value: string, l: Layout)
    ensures var line := PairText(name, [separator], value, l) + "\n"; var at := |name| + |l.gap|;
            && at < |line| && line[at] == separator && line[..|name|] == name
            && (forall k :: 0 <= k < |name| ==> line[k] == name[k] && line[k] in name)
            && (forall k :: |name| <= k < at ==> line[k] in l.gap)
  {
    hide PairText;
    PairSides(name, separator, value, l);
    var line, at := PairText(name, [separator], value, l) + "\n", |name| + |l.gap|;
    assert line[0..at] == line[..at] == name + l.gap + "";
    PartsArePlaced(line, 0, name, l.gap, "");
    assert line[..|name|] == name;
  }

  lemma NameIsRead(st: State, name: string, value: string, l: Layout)
    requires !st.error && NameOk(name) && Unbroken(value) && LayoutOk(l) && Follows(l.rest, value)
    ensures ParseLine(st, PairText(name, "=", value, l) + "\n") == Pushed(st.(name := name), value)
  {
    hide PairText, Token, ParseLine;
    PairIsPlaced(name, '=', value, l);
    PairValueIsRead(name, '=', value, l);
    var line := PairText(name, "=", value, l) + "\n";
    assert line[0] == name[0] && line[|name| - 1] == name[|name| - 1];
    AssignmentIsRead(st, line, |name|, |name| + |l.gap|, value);
  }

  lemma ColonNameIsRead(st: State, name: string, value: string, l: Layout)
    requires !st.error && NameOk(name) && ':' !in name && Unbroken(value) && LayoutOk(l) && Follows(l.rest, value)
    requires '=' !in value && '=' !in l.rest
    ensures ParseLine(st, PairText(name, ":", value, l) + "\n") == Pushed(st.(name := name), value)
  {
    hide Token, ParseLine;
    PairIsPlaced(name, ':', value, l);
    PairValueIsRead(name, ':', value, l);
    var line := PairText(name, ":", value, l) + "\n";
    assert line[0] == name[0] && line[|name| - 1] == name[|name| - 1];
    assert '=' !in line;
    ColonAssignmentIsRead(st, line, |name|, |name| + |l.gap|, value);
  }

  /** The colon is looked for only on lines without an equals sign, and the first one separates, so the two
      notations agree exactly for values without an equals sign under names without a colon. */
  lemma ColonIsRead(st: State, name: string, value: string)
    requires !st.error && NameOk(name) && Unbroken(value)
    ensures ParseLine(st, ColonLine(name, value)) == ParseLine(st, NamedLine(name, value))
            <==> '=' !in value && ':' !in name
  {
    NameIsRead(st, name, value, SPACED);
    if '=' in value {
      EqualsWins(st, ColonLine(name, value), name, value);
    } else if ':' in name {
      EarlyColonCuts(st, name, value);
    } else {
      ColonNameIsRead(st, name, value, HUGGED);
    }
  }

  lemma EarlyColonCuts(st: State, name: string, value: string)
    requires !st.error && NameOk(name) && Unbroken(value) && '=' !in value && ':' in name
    ensures |ParseLine(st, ColonLine(name, value)).name| < |name|
  {
    hide ParseLine;
    var line, k := ColonLine(name, value), FirstOf(name, ':');
    assert '=' !in line;
    ColonLineIsPlaced(name, value);
    hide ColonLine;
    assert line[0] == name[0] && name[0] in name && line[k] == ':';
    forall i | 0 <= i < k ensures line[i] != ':' && line[i] != '\0' {
      assert line[i] == name[i] && name[i] in name;
    }
    FirstColonSeparates(st, line, k);
  }

  lemma {:induction false} StrippedIsNoLonger(s: string, begin: nat, end: nat)
    requires begin <= end <= |s|
    ensures |Stripped(s, begin, end)| <= end - begin
    decreases end - begin
  {
    if begin < end && IsSpace(s[begin]) {
      StrippedIsNoLonger(s, begin + 1, end);
    } else if begin < end && IsSpace(s[end - 1]) {
      StrippedIsNoLonger(s, begin, end - 1);
    }
  }

  lemma FirstColonSeparates(st: State, line: string, colon: nat)
    requires !st.error && colon < |line| && line[colon] == ':' && OpensName(line[0]) && '=' !in line
    requires forall k :: 0 <= k < colon ==> line[k] != ':' && line[k] != '\0'
    ensures |ParseLine(st, line).name| <= colon
  {
    SkipLands(line, 0, 0);
    FindLands(line, 0, colon, AtChar(':'));
    SkipLands(line, colon, colon);
    assert TillFrom(line, 0, '=').0 == "" && TillFrom(line, 0, '=').1 == 0;
    StrippedIsNoLonger(line, 0, colon);
  }

  lemma ColonLineIsPlaced(name: string, value: string)
    ensures var line := ColonLine(name, value);
            && |line| == |name| + |value| + 3 && line[|name|] == ':' && line[|name| + 1] == ' '
            && (forall i :: 0 <= i < |name| ==> line[i] == name[i])
            && (forall i :: |name| + 2 <= i < |name| + 2 + |value| ==> line[i] == value[i - |name| - 2])
  {
    var line := ColonLine(name, value);
    assert name + HUGGED.gap == name && HUGGED.lead + value + HUGGED.rest == " " + value;
    SidesArePlaced(line, name, ':', " " + value);
    assert forall i :: 0 <= i < |name| ==> line[i] == line[..|name|][i];
    assert forall i :: |name| < i < |line| - 1 ==> line[i] == line[|name| + 1..|line| - 1][i - |name| - 1];
  }

  lemma EqualsWins(st: State, line: string, name: string, value: string)
    requires !st.error && NameOk(name) && Unbroken(value)
    requires line == ColonLine(name, value) && '=' in value
    ensures |ParseLine(st, line).name| > |name|
  {
    hide ParseLine, ColonLine;
    ColonLineIsPlaced(name, value);
    var k := FirstOf(value, '=');
    var at := |name| + 2 + k;
    forall i | 0 <= i < at ensures line[i] != '=' && line[i] != '\0' {
      assert i < |name| ==> name[i] in name;
      assert i >= |name| + 2 ==> line[i] == value[i - |name| - 2] && line[i] in value;
    }
    LateEqualsWins(st, line, |name|, at);
  }

  /** An equals sign behind the colon still separates, and the name then reaches past the colon. */
  lemma LateEqualsWins(st: State, line: string, colon: nat, at: nat)
    requires !st.error && colon < at < |line| && line[at] == '=' && OpensName(line[0]) && line[colon] == ':'
    requires forall k :: 0 <= k < at ==> line[k] != '=' && line[k] != '\0'
    ensures |ParseLine(st, line).name| > colon
  {
    SkipLands(line, 0, 0);
    FindLands(line, 0, at, AtChar('='));
    SkipLands(line, at, at);
    StripKeeps(line, 0, colon, at);
  }

  function FirstOf(s: string, c: char): (k: nat)
    requires c in s
    ensures k < |s| && s[k] == c && forall i :: 0 <= i < k ==> s[i] != c
  {
    if s[0] == c then 0 else FirstOf(s[1..], c) + 1
  }

  /** Stripping cuts nothing between two characters that are not white space. */
  lemma {:induction false} StripKeeps(s: string, begin: nat, k: nat, end: nat)
    requires begin <= k < end <= |s| && !IsSpace(s[begin]) && !IsSpace(s[k])
    ensures |Stripped(s, begin, end)| > k - begin
    decreases end - begin
  {
    if IsSpace(s[end - 1]) { StripKeeps(s, begin, k, end - 1); }
  }

  /** What may follow a value on an indented line. */
  predicate EndsIndented(rest: string) {
    rest == "" || IsSpace(rest[0]) || rest[0] == '#'
  }

  lemma ContinuationIsRead(st: State, value: string, l: Layout)
    requires !st.error && st.name != "" && Unbroken(value) && Continuable(value)
    requires LayoutOk(l) && l.indent != "" && EndsIndented(l.rest)
    ensures ParseLine(st, IndentedText(value, l) + "\n") == Pushed(st, value)
  {
    hide ParseLine;
    var line := IndentedText(value, l) + "\n";
    var from := |l.indent|;
    var end := from + |value|;
    assert line[0..|line| - 1] == l.indent + value + l.rest && line[|line| - 1] == '\n';
    PartsArePlaced(line, 0, l.indent, value, l.rest);
    assert line[from..end] == value;
    IndentIsRead(st, line, from, end);
  }

  lemma IndentIsRead(st: State, line: string, from: nat, end: nat)
    requires !st.error && st.name != "" && 0 < from < end < |line|
    requires forall k :: 0 <= k < from ==> IsSpace(line[k])
    requires forall k :: from <= k < end ==> !IsSpace(line[k]) && line[k] != '#' && line[k] != '\0'
    requires line[from] != '[' && (IsSpace(line[end]) || line[end] == '#')
    ensures ParseLine(st, line) == Pushed(st, line[from..end])
  {
    SkipLands(line, 0, from);
    SkipLands(line, from, from);
    FindLands(line, from, end, AtSpaceOrHash);
    StripLands(line, from, end, end);
  }

  lemma PushedIsNew(st: State, value: string)
    ensures Pushed(st, value).table != st.table
    ensures forall other :: Pushed(st, value) == Pushed(st, other) ==> value == other
  {
    var key := MakeKey(st.section, st.name);
    var was := if key in st.table then st.table[key] else [];
    assert Pushed(st, value).table[key] == was + [value];
    assert |was + [value]| == |was| + 1;
    forall other | Pushed(st, value) == Pushed(st, other) ensures value == other {
      assert Pushed(st, other).table[key] == was + [other];
      assert (was + [value])[|was|] == (was + [other])[|was|];
    }
  }

  /** An indented value reads as if the name had been repeated exactly when the value is not empty,
      holds no `#` and does not open with `[`. */
  lemma ContinuationIsRepetition(st: State, value: string)
    requires !st.error && NameOk(st.name) && Unbroken(value)
    ensures ParseLine(st, ContinuedLine(value)) == ParseLine(st, NamedLine(st.name, value)) <==> Continuable(value)
  {
    NameIsRead(st, st.name, value, SPACED);
    PushedIsNew(st, value);
    if Continuable(value) {
      ContinuationIsRead(st, value, INDENTED);
    } else if value == "" || value[0] in "[#" {
      IndentIsLost(st, value);
    } else {
      HashCuts(st, ContinuedLine(value), value);
    }
  }

  lemma IndentIsLost(st: State, value: string)
    requires !st.error && st.name != "" && Unbroken(value) && (value == "" || value[0] in "[#")
    ensures var after := ParseLine(st, ContinuedLine(value)); after == st || after.name == ""
  {
    var line := ContinuedLine(value);
    assert line == "  " + value + "\n";
    assert line[0] == line[1] == ' ';
    if value == "" {
      SkipLands(line, 0, |line|);
    } else {
      assert line[2] == value[0];
      SkipLands(line, 0, 2);
    }
  }

  lemma HashCuts(st: State, line: string, value: string)
    requires !st.error && st.name != "" && Unbroken(value)
    requires line == ContinuedLine(value) && value != "" && value[0] !in "[#" && '#' in value
    ensures ParseLine(st, line) != Pushed(st, value)
  {
    var k := FirstOf(value, '#');
    assert line == "  " + value + "\n";
    assert line[0] == line[1] == ' ' && line[2 + k] == '#' && line[2..2 + k] == value[..k];
    assert forall i :: 2 <= i < 2 + k ==> line[i] == value[i - 2] && line[i] in value;
    SkipLands(line, 0, 2);
    SkipLands(line, 2, 2);
    FindLands(line, 2, 2 + k, AtSpaceOrHash);
    assert Unbroken(value[..k]);
    StripLands(line, 2, 2 + k, 2 + k);
    PushedIsNew(st, value[..k]);
  }

  // ---- Whole files ----

  datatype Item =
    | Header(title: string, layout: Layout)
    | Named(name: string, value: string, layout: Layout)
    | Colon(name: string, value: string, layout: Layout)
    | Continued(value: string, layout: Layout)
    | Comment(indent: string, text: string)

  function Text(item: Item): string {
    match item
    case Header(title, l) => HeaderText(title, l)
    case Named(name, value, l) => PairText(name, "=", value, l)
    case Colon(name, value, l) => PairText(name, ":", value, l)
    case Continued(value, l) => IndentedText(value, l)
    case Comment(indent, text) => indent + if text == "" then "" else "#" + text
  }

  function LineOf(item: Item): string {
    Text(item) + "\n"
  }

  /** The accepted grammar of one line, when the name in force is `name`. */
  predicate ItemOk(item: Item, name: string) {
    && |LineOf(item)| < MAX_LINE
    && match item
       case Header(title, l) => TitleOk(title) && LayoutOk(l)
       case Named(n, value, l) => NameOk(n) && Unbroken(value) && LayoutOk(l) && Follows(l.rest, value)
       case Colon(n, value, l) =>
         && NameOk(n) && ':' !in n && Unbroken(value) && LayoutOk(l) && Follows(l.rest, value)
         && '=' !in value && '=' !in l.rest
       case Continued(value, l) =>
         name != "" && Unbroken(value) && Continuable(value) && LayoutOk(l) && l.indent != "" && EndsIndented(l.rest)
       case Comment(indent, text) => Blank(indent) && '\n' !in text
  }

  /** What a line binds: `section`, `name` and `value`. */
  datatype Binding = Binding(section: string, name: string, value: string)

  function NameAfter(item: Item, name: string): string {
    match item
    case Header(_, _) => ""
    case Named(n, _, _) => n
    case Colon(n, _, _) => n
    case _ => name
  }

  predicate WellFormed(items: seq<Item>, name: string) {
    items == [] || (ItemOk(items[0], name) && WellFormed(items[1..], NameAfter(items[0], name)))
  }

  function Bound(item: Item, section: string, name: string): seq<Binding> {
    match item
    case Named(n, value, _) => [Binding(section, n, value)]
    case Colon(n, value, _) => [Binding(section, n, value)]
    case Continued(value, _) => [Binding(section, name, value)]
    case _ => []
  }

  function Bindings(items: seq<Item>, section: string, name: string): seq<Binding> {
    if items == [] then []
    else
      Bound(items[0], section, name)
      + Bindings(items[1..], if items[0].Header? then items[0].title else section, NameAfter(items[0], name))
  }

  /** The values bound under `key`, in file order. */
  function ValuesOf(bindings: seq<Binding>, key: string): Values {
    if bindings == [] then []
    else
      var rest := ValuesOf(bindings[1..], key);
      if MakeKey(bindings[0].section, bindings[0].name) == key then [bindings[0].value] + rest else rest
  }

  function LookUp(table: Table, key: string): Values {
    if key in table then table[key] else []
  }

  function Texts(items: seq<Item>): seq<string> {
    seq(|items|, i requires 0 <= i < |items| => LineOf(items[i]))
  }

  function Joined(lines: seq<string>): string {
    if lines == [] then "" else lines[0] + Joined(lines[1..])
  }

  lemma CommentIsRead(st: State, indent: string, text: string)
    requires Blank(indent)
    ensures ParseLine(st, LineOf(Comment(indent, text))) == st
  {
    var line := LineOf(Comment(indent, text));
    assert forall k :: 0 <= k < |indent| ==> line[k] == indent[k] && line[k] in indent;
    if text == "" {
      assert line[|indent|] == '\n';
      SkipLands(line, 0, |line|);
    } else {
      assert line[|indent|] == '#';
      SkipLands(line, 0, |indent|);
    }
  }

  /** What a line in the grammar does to the parser's state. */
  function Absorb(st: State, item: Item): State {
    match item
    case Header(title, _) => st.(section := title, name := "")
    case Named(n, value, _) => Pushed(st.(name := n), value)
    case Colon(n, value, _) => Pushed(st.(name := n), value)
    case Continued(value, _) => Pushed(st, value)
    case Comment(_, _) => st
  }

  function Absorbed(st: State, items: seq<Item>): State
    decreases |items|
  {
    if items == [] then st else Absorbed(Absorb(st, items[0]), items[1..])
  }

  lemma ItemIsRead(st: State, item: Item)
    requires !st.error && ItemOk(item, st.name)
    ensures ParseLine(st, LineOf(item)) == Absorb(st, item)
  {
    match item
    case Header(title, l) => HeaderIsRead(st, title, l);
    case Named(n, value, l) => NameIsRead(st, n, value, l);
    case Colon(n, value, l) => ColonNameIsRead(st, n, value, l);
    case Continued(value, l) => ContinuationIsRead(st, value, l);
    case Comment(indent, text) => CommentIsRead(st, indent, text);
  }

  lemma FirstLine(st: State, next: State, line: string, lines: seq<string>)
    requires !st.error && !next.error && ParseLine(st, line) == next
    requires ParseLines(next, lines).1 == 0
    ensures ParseLines(st, [line] + lines) == ParseLines(next, lines)
  {
    assert ([line] + lines)[1..] == lines;
  }

  lemma {:induction false} LinesAreRead(st: State, items: seq<Item>)
    requires !st.error && WellFormed(items, st.name)
    ensures ParseLines(st, Texts(items)) == (Absorbed(st, items), 0)
    decreases |items|
  {
    if items != [] {
      var item, rest := items[0], items[1..];
      LinesAreRead(Absorb(st, item), rest);
      ItemIsRead(st, item);
      FirstLine(st, Absorb(st, item), LineOf(item), Texts(rest));
      assert Texts(items) == [LineOf(item)] + Texts(rest);
    }
  }

  lemma AbsorbBinds(st: State, item: Item, key: string)
    ensures LookUp(Absorb(st, item).table, key)
         == LookUp(st.table, key) + ValuesOf(Bound(item, st.section, st.name), key)
  {
    var bound := Bound(item, st.section, st.name);
    if bound != [] {
      assert ValuesOf(bound[1..], key) == [];
    }
  }

  lemma {:induction false} ValuesOfJoin(first: seq<Binding>, rest: seq<Binding>, key: string)
    ensures ValuesOf(first + rest, key) == ValuesOf(first, key) + ValuesOf(rest, key)
  {
    if first == [] {
      assert first + rest == rest;
    } else {
      assert (first + rest)[1..] == first[1..] + rest;
      ValuesOfJoin(first[1..], rest, key);
    }
  }

  lemma Regroup<T>(a: seq<T>, b: seq<T>, c: seq<T>)
    ensures (a + b) + c == a + (b + c)
  {
  }

  lemma BindingsSplit(st: State, items: seq<Item>)
    requires items != []
    ensures var next := Absorb(st, items[0]);
            Bindings(items, st.section, st.name)
            == Bound(items[0], st.section, st.name) + Bindings(items[1..], next.section, next.name)
  {
  }

  /** The list under `key` grows by exactly the values the lines bind to it, in order. */
  lemma {:induction false} ListsGrow(st: State, items: seq<Item>, key: string)
    ensures LookUp(Absorbed(st, items).table, key)
         == LookUp(st.table, key) + ValuesOf(Bindings(items, st.section, st.name), key)
    decreases |items|
  {
    if items != [] {
      var next, bound := Absorb(st, items[0]), Bound(items[0], st.section, st.name);
      var more := Bindings(items[1..], next.section, next.name);
      AbsorbBinds(st, items[0], key);
      ListsGrow(next, items[1..], key);
      BindingsSplit(st, items);
      ValuesOfJoin(bound, more, key);
      calc {
        LookUp(Absorbed(st, items).table, key);
        LookUp(next.table, key) + ValuesOf(more, key);
        (LookUp(st.table, key) + ValuesOf(bound, key)) + ValuesOf(more, key);
        { Regroup(LookUp(st.table, key), ValuesOf(bound, key), ValuesOf(more, key)); }
        LookUp(st.table, key) + ValuesOf(bound + more, key);
      }
    }
  }

  /** A line as `fgets` delivers it: one newline, at its end, and room for the terminating NUL. */
  predicate Terminated(line: string) {
    0 < |line| < MAX_LINE && line[|line| - 1] == '\n' && forall k :: 0 <= k < |line| - 1 ==> line[k] != '\n'
  }

  lemma {:induction false} LineEndIs(text: string, i: nat, n: nat)
    requires 0 < n && i + n <= |text| && text[i + n - 1] == '\n'
    requires forall k :: i <= k < i + n - 1 ==> text[k] != '\n'
    ensures LineEnd(text, i) == n
    decreases n
  {
    if n > 1 { LineEndIs(text, i + 1, n - 1); }
  }

  lemma LineIsSplit(line: string, more: string)
    requires Terminated(line)
    ensures Lines(line + more) == [line] + Lines(more)
  {
    var text, n := line + more, |line|;
    assert text[..n] == line && text[n..] == more;
    assert forall k :: 0 <= k < n ==> text[k] == line[k];
    LineEndIs(text, 0, n);
  }

  lemma {:induction false} LinesAreSplit(lines: seq<string>, last: string)
    requires forall line :: line in lines ==> Terminated(line)
    ensures Lines(Joined(lines) + last) == lines + Lines(last)
  {
    hide Terminated, Lines;
    if lines == [] {
      assert "" + last == last && [] + Lines(last) == Lines(last);
    } else {
      LineIsSplit(lines[0], Joined(lines[1..]) + last);
      LinesAreSplit(lines[1..], last);
      Regroup(lines[0], Joined(lines[1..]), last);
      Regroup([lines[0]], lines[1..], Lines(last));
      assert lines == [lines[0]] + lines[1..];
    }
  }

  lemma {:induction false} TextsAreTerminated(items: seq<Item>, name: string)
    requires WellFormed(items, name)
    ensures forall line :: line in Texts(items) ==> Terminated(line)
    decreases |items|
  {
    if items != [] {
      assert Texts(items)[1..] == Texts(items[1..]);
      TextsAreTerminated(items[1..], NameAfter(items[0], name));
      var line := LineOf(items[0]);
      NoInnerNewline(items[0], name);
      forall l | l in Texts(items) ensures Terminated(l) {
        assert l == line || l in Texts(items[1..]);
      }
    }
  }

  lemma NoInnerNewline(item: Item, name: string)
    requires ItemOk(item, name)
    ensures '\n' !in Text(item) && |Text(item)| < MAX_LINE && Terminated(LineOf(item))
  {
    assert '\n' !in Text(item);
    assert forall k :: 0 <= k < |Text(item)| ==> LineOf(item)[k] == Text(item)[k] && Text(item)[k] in Text(item);
  }

  lemma FilesAreRead(items: seq<Item>)
    requires WellFormed(items, "")
    ensures Parse(Joined(Texts(items))) == (Absorbed(EMPTY, items), 0)
  {
    TextsAreTerminated(items, "");
    LinesAreSplit(Texts(items), "");
    assert Joined(Texts(items)) + "" == Joined(Texts(items)) && Lines("") == [] && Texts(items) + [] == Texts(items);
    LinesAreRead(EMPTY, items);
  }

  // ---- A last line without a newline ----

  lemma {:induction false} PastSpaceIdle(s: string, i: nat)
    requires i <= |s|
    ensures PastSpace(s + "\n", i) == if PastSpace(s, i) == |s| then |s| + 1 else PastSpace(s, i)
    decreases |s| - i
  {
    if i < |s| && IsSpace(s[i]) { PastSpaceIdle(s, i + 1); }
  }

  lemma {:induction false} FindIdle(s: string, i: nat, stop: Stop)
    requires i <= |s|
    ensures Find(s + "\n", i, stop)
         == if Find(s, i, stop) == |s| && !Stops(stop, '\n') then |s| + 1 else Find(s, i, stop)
    decreases |s| - i
  {
    if i < |s| && s[i] != '\0' && !Stops(stop, s[i]) { FindIdle(s, i + 1, stop); }
  }

  lemma {:induction false} StrippedIdle(s: string, begin: nat, end: nat)
    requires begin <= end <= |s|
    ensures Stripped(s + "\n", begin, end) == Stripped(s, begin, end)
    decreases end - begin
  {
    if begin < end && IsSpace(s[begin]) {
      StrippedIdle(s, begin + 1, end);
    } else if begin < end && IsSpace(s[end - 1]) {
      StrippedIdle(s, begin, end - 1);
    } else {
      assert (s + "\n")[begin..end] == s[begin..end];
    }
  }

  lemma TokenIdle(s: string, i: nat, stop: Stop)
    requires i <= |s| && Stops(stop, '\n')
    ensures Token(s + "\n", i, stop).0 == Token(s, i, stop).0
  {
    PastSpaceIdle(s, i);
    var from := PastSpace(s, i);
    if from < |s| {
      FindIdle(s, from, stop);
      StrippedIdle(s, from, Find(s, from, stop));
    } else {
      assert Token(s + "\n", i, stop).0 == "" == Token(s, i, stop).0;
    }
  }

  lemma SeparatorIdle(s: string, i: nat, c: char)
    requires i <= |s| && c != '\0' && !IsSpace(c)
    ensures var (t, j) := TillFrom(s, i, c); var (u, k) := TillFrom(s + "\n", i, c);
            && t == u && (At(s + "\n", PastSpace(s + "\n", k)) == c <==> At(s, PastSpace(s, j)) == c)
            && (At(s, PastSpace(s, j)) == c ==> PastSpace(s + "\n", k) == PastSpace(s, j) < |s|)
  {
    PastSpaceIdle(s, i);
    var from := PastSpace(s, i);
    if from < |s| {
      FindIdle(s, from, AtChar(c));
      PastSpaceIdle(s, from);
      var end := Find(s, from, AtChar(c));
      if At(s, end) == c {
        PastSpaceIdle(s, end);
        StrippedIdle(s, from, end);
      }
    }
  }

  lemma PairIdle(st: State, s: string, i: nat)
    requires i <= |s|
    ensures ParsePair(st, s + "\n", i) == ParsePair(st, s, i)
  {
    hide TillFrom, PastSpace, Token, Pushed;
    SeparatorIdle(s, i, '=');
    SeparatorIdle(s, i, ':');
    var first, second := PastSpace(s, TillFrom(s, i, '=').1), PastSpace(s, TillFrom(s, i, ':').1);
    if At(s, first) == '=' { TokenIdle(s, first + 1, AtSpace); }
    if At(s, second) == ':' { TokenIdle(s, second + 1, AtSpace); }
  }

  /** The newline at the end of a line means nothing. */
  lemma NewlineIsIdle(st: State, line: string)
    ensures ParseLine(st, line + "\n") == ParseLine(st, line)
  {
    hide PastSpace, TillFrom, Token, ParsePair, Pushed;
    PastSpaceIdle(line, 0);
    var i := PastSpace(line, 0);
    if i < |line| {
      SeparatorIdle(line, i + 1, ']');
      TokenIdle(line, i, AtSpaceOrHash);
      PairIdle(st, line, i);
      assert (line + "\n")[0] == line[0] && (line + "\n")[i] == line[i];
    }
  }

  lemma {:induction false} LastNewlineIsIdle(st: State, lines: seq<string>, last: string)
    requires !st.error
    ensures ParseLines(st, lines + [last]) == ParseLines(st, lines + [last + "\n"])
    decreases |lines|
  {
    hide ParseLine;
    if lines == [] {
      NewlineIsIdle(st, last);
      assert [last][1..] == [] == [last + "\n"][1..];
    } else {
      var next := ParseLine(st, lines[0]);
      assert (lines + [last])[1..] == lines[1..] + [last];
      assert (lines + [last + "\n"])[1..] == lines[1..] + [last + "\n"];
      if !next.error { LastNewlineIsIdle(next, lines[1..], last); }
    }
  }

  /** Nor does a blank last line. */
  lemma {:induction false} LastBlankIsIdle(st: State, lines: seq<string>)
    requires !st.error
    ensures ParseLines(st, lines + ["\n"]) == ParseLines(st, lines)
    decreases |lines|
  {
    if lines == [] {
      assert "" + "\n" == "\n";
      NewlineIsIdle(st, "");
      assert ["\n"][1..] == [];
    } else {
      hide ParseLine;
      var next := ParseLine(st, lines[0]);
      assert (lines + ["\n"])[1..] == lines[1..] + ["\n"];
      if !next.error { LastBlankIsIdle(next, lines[1..]); }
    }
  }

  lemma {:induction false} OpenLineEnd(text: string, i: nat)
    requires i < |text| && '\n' !in text[i..]
    ensures LineEnd(text, i) == |text| - i
    decreases |text| - i
  {
    assert text[i] in text[i..];
    if i + 1 < |text| {
      assert text[i..] == [text[i]] + text[i + 1..];
      OpenLineEnd(text, i + 1);
    }
  }

  lemma OpenLineIsSplit(last: string)
    requires '\n' !in last && |last| < MAX_LINE
    ensures Lines(last) == if last == "" then [] else [last]
  {
    if last != "" {
      assert last[0..] == last;
      OpenLineEnd(last, 0);
      assert last[..|last|] == last && last[|last|..] == "";
      assert Lines("") == [];
    }
  }

  /** The file's text, whose last line may lack its newline. */
  function FileText(items: seq<Item>, closed: bool): string {
    if closed || items == [] then Joined(Texts(items))
    else Joined(Texts(items[..|items| - 1])) + Text(items[|items| - 1])
  }

  lemma {:induction false} PrefixWellFormed(items: seq<Item>, name: string) returns (last: string)
    requires items != [] && WellFormed(items, name)
    ensures WellFormed(items[..|items| - 1], name) && ItemOk(items[|items| - 1], last)
    decreases |items|
  {
    if |items| == 1 {
      last := name;
    } else {
      last := PrefixWellFormed(items[1..], NameAfter(items[0], name));
      assert items[..|items| - 1][1..] == items[1..][..|items| - 2];
    }
  }

  lemma OpenFilesAreRead(items: seq<Item>)
    requires WellFormed(items, "") && items != []
    ensures Parse(FileText(items, false)) == (Absorbed(EMPTY, items), 0)
  {
    hide ItemOk, WellFormed, Terminated, ParseLines, Absorbed, Joined, Lines, Texts, Text;
    var front, last := items[..|items| - 1], items[|items| - 1];
    var n := PrefixWellFormed(items, "");
    NoInnerNewline(last, n);
    TextsAreTerminated(front, "");
    LinesAreSplit(Texts(front), Text(last));
    OpenLineIsSplit(Text(last));
    LastLineIsIdle(Texts(front), Text(last));
    TextsSnoc(items);
    LinesAreRead(EMPTY, items);
  }

  lemma TextsSnoc(items: seq<Item>)
    requires items != []
    ensures Texts(items) == Texts(items[..|items| - 1]) + [LineOf(items[|items| - 1])]
  {
    hide LineOf;
  }

  lemma LastLineIsIdle(lines: seq<string>, last: string)
    ensures ParseLines(EMPTY, lines + (if last == "" then [] else [last])) == ParseLines(EMPTY, lines + [last + "\n"])
  {
    if last == "" {
      assert "" + "\n" == "\n" && lines + [] == lines;
      LastBlankIsIdle(EMPTY, lines);
    } else {
      LastNewlineIsIdle(EMPTY, lines, last);
    }
  }

  predicate NoEmptyList(table: Table) {
    forall key :: key in table ==> table[key] != []
  }

  lemma {:induction false} AbsorbedHasNoEmptyList(st: State, items: seq<Item>)
    requires NoEmptyList(st.table)
    ensures NoEmptyList(Absorbed(st, items).table)
    decreases |items|
  {
    if items != [] { AbsorbedHasNoEmptyList(Absorb(st, items[0]), items[1..]); }
  }

  /** The round trip: a file written in the accepted grammar, in any layout and with or without a last
      newline, parses without error into exactly the map that has the keys the file binds and lists
      under each its values in order. */
  lemma RoundTrip(items: seq<Item>, closed: bool, key: string)
    requires WellFormed(items, "")
    ensures Parse(FileText(items, closed)).1 == 0
    ensures var table, values := Parse(FileText(items, closed)).0.table, ValuesOf(Bindings(items, "", ""), key);
            (key in table <==> values != []) && (key in table ==> table[key] == values)
  {
    hide Parse, Texts, Absorbed, WellFormed, Bindings, ValuesOf;
    if closed || items == [] { FilesAreRead(items); } else { OpenFilesAreRead(items); }
    ListsGrow(EMPTY, items, key);
    AbsorbedHasNoEmptyList(EMPTY, items);
  }

  // ---- Keys ----

  predicate Capital(c: char) {
    'A' <= c <= 'Z'
  }

  /** The same character, or a capital and its small letter. */
  predicate SameLetter(c: char, d: char) {
    c == d || (Capital(c) && d as int == c as int + 32) || (Capital(d) && c as int == d as int + 32)
  }

  /** Spelled alike but for the case of letters. */
  predicate SameText(s: string, t: string) {
    |s| == |t| && forall i :: 0 <= i < |s| ==> SameLetter(s[i], t[i])
  }

  lemma LettersMeet(c: char, d: char)
    ensures ToLower(c) == ToLower(d) <==> SameLetter(c, d)
    ensures !Capital(ToLower(c)) && SameLetter(c, ToLower(c))
  {
  }

  /** Lower-casing identifies exactly the texts that are spelled alike but for case. */
  lemma LowerMeets(s: string, t: string)
    ensures Lower(s) == Lower(t) <==> SameText(s, t)
  {
    hide SameLetter, ToLower;
    forall i | 0 <= i < |s| && i < |t| ensures Lower(s)[i] == Lower(t)[i] <==> SameLetter(s[i], t[i]) {
      LettersMeet(s[i], t[i]);
    }
    if SameText(s, t) {
      assert Lower(s) == Lower(t);
    } else if |s| == |t| {
      var i :| 0 <= i < |s| && !SameLetter(s[i], t[i]);
      assert Lower(s)[i] != Lower(t)[i];
    } else {
      assert |Lower(s)| == |s| && |Lower(t)| == |t|;
    }
  }

  /** A key is its binding's text without capitals, and it alone. */
  lemma KeysAreLower(section: string, name: string, key: string)
    ensures key == MakeKey(section, name) <==> SameText(key, section + "." + name) && forall c :: c in key ==> !Capital(c)
  {
    var text := section + "." + name;
    forall i | 0 <= i < |text| ensures !Capital(Lower(text)[i]) && SameLetter(Lower(text)[i], text[i]) {
      LettersMeet(text[i], text[i]);
    }
    if SameText(key, text) && forall c :: c in key ==> !Capital(c) {
      LowerMeets(key, text);
      forall i | 0 <= i < |key| ensures Lower(key)[i] == key[i] { assert key[i] in key; }
      assert Lower(key) == key;
    }
  }

  /** Title `s` followed by a dot begins title `t`, up to case. */
  predicate Shadows(s: string, t: string) {
    |s| < |t| && SameText(s + ".", t[..|s| + 1])
  }

  /** Name `n` is the rest of title `t` behind `s`, a dot, and name `m`, up to case. */
  predicate Bridges(s: string, n: string, t: string, m: string) {
    Shadows(s, t) && SameText(n, t[|s| + 1..] + "." + m)
  }

  lemma SameTextJoins(a: string, b: string, c: string, d: string)
    requires |a| == |c|
    ensures SameText(a + b, c + d) <==> SameText(a, c) && SameText(b, d)
  {
    hide SameLetter;
    if SameText(a + b, c + d) {
      forall i | 0 <= i < |a| ensures SameLetter(a[i], c[i]) { assert SameLetter((a + b)[i], (c + d)[i]); }
      forall i | 0 <= i < |b| ensures SameLetter(b[i], d[i]) {
        assert SameLetter((a + b)[|a| + i], (c + d)[|a| + i]);
      }
    }
  }

  lemma BridgedKeysCollide(s: string, n: string, t: string, m: string)
    requires |s| < |t|
    ensures MakeKey(s, n) == MakeKey(t, m) <==> Bridges(s, n, t, m)
  {
    LowerMeets(s + "." + n, t + "." + m);
    var front, back := t[..|s| + 1], t[|s| + 1..];
    assert t + "." + m == front + (back + "." + m);
    SameTextJoins(s + ".", n, front, back + "." + m);
  }

  /** The two agree up to case, or the longer title and its name are the other's with the dot in another
      place. */
  predicate Meet(s: string, n: string, t: string, m: string) {
    (SameText(s, t) && SameText(n, m)) || Bridges(s, n, t, m) || Bridges(t, m, s, n)
  }

  lemma KeysCollide(s: string, n: string, t: string, m: string)
    ensures MakeKey(s, n) == MakeKey(t, m) <==> Meet(s, n, t, m)
  {
    if |s| < |t| {
      BridgedKeysCollide(s, n, t, m);
    } else if |t| < |s| {
      BridgedKeysCollide(t, m, s, n);
    } else {
      LowerMeets(s + "." + n, t + "." + m);
      SameTextJoins(s + ".", n, t + ".", m);
      SameTextJoins(s, ".", t, ".");
    }
  }

  /** Two different sections can share a key exactly if one title, followed by a dot, begins the other. */
  lemma SectionsCollide(s: string, t: string)
    requires !SameText(s, t)
    ensures (exists n, m :: MakeKey(s, n) == MakeKey(t, m)) <==> Shadows(s, t) || Shadows(t, s)
  {
    hide SameText;
    if n, m :| MakeKey(s, n) == MakeKey(t, m) { KeysCollide(s, n, t, m); }
    if Shadows(s, t) { ShadowedNames(s, t, ""); }
    if Shadows(t, s) { ShadowedNames(t, s, ""); }
  }

  /** ... and then any name in the longer section has a counterpart in the shorter one. */
  lemma ShadowedNames(s: string, t: string, m: string)
    requires Shadows(s, t)
    ensures MakeKey(s, t[|s| + 1..] + "." + m) == MakeKey(t, m)
  {
    KeysCollide(s, t[|s| + 1..] + "." + m, t, m);
  }

  lemma ShadowHasADot(s: string, t: string)
    requires Shadows(s, t)
    ensures '.' in t
  {
    assert SameLetter((s + ".")[|s|], t[..|s| + 1][|s|]);
  }

  /** So sections whose titles have no dot never share a key. */
  lemma KeysSeparate(s: string, n: string, t: string, m: string)
    requires '.' !in s && '.' !in t
    ensures MakeKey(s, n) == MakeKey(t, m) <==> SameText(s, t) && SameText(n, m)
    ensures Meet(s, n, t, m) <==> SameText(s, t) && SameText(n, m)
  {
    KeysCollide(s, n, t, m);
    if Shadows(s, t) { ShadowHasADot(s, t); }
    if Shadows(t, s) { ShadowHasADot(t, s); }
  }

  /** Witnesses: dotted titles that share a key with another section, and dotted titles that do not. */
  lemma DottedTitlesCollide(n: string, m: string)
    ensures MakeKey("a.b", "c") == MakeKey("a", "b.c")
    ensures MakeKey("a.b", n) != MakeKey("c.d", m)
  {
    assert "a.b" + "." + "c" == "a" + "." + "b.c";
    assert MakeKey("a.b", n)[0] == 'a' && MakeKey("c.d", m)[0] == 'c';
  }

  // ---- Getters over a parsed file ----

  /** The values of the bindings that meet the name, whatever the spelling, in file order. */
  function ValuesUnder(bindings: seq<Binding>, section: string, name: string): Values {
    if bindings == [] then []
    else
      (if Meet(bindings[0].section, bindings[0].name, section, name) then [bindings[0].value] else [])
      + ValuesUnder(bindings[1..], section, name)
  }

  lemma {:induction false} SpellingsMeet(bindings: seq<Binding>, section: string, name: string)
    ensures ValuesOf(bindings, MakeKey(section, name)) == ValuesUnder(bindings, section, name)
  {
    if bindings != [] {
      hide Meet, MakeKey;
      KeysCollide(bindings[0].section, bindings[0].name, section, name);
      SpellingsMeet(bindings[1..], section, name);
    }
  }

  /** What the getters look up in a file read back, asked for in any spelling: the values that the file binds
      to that name in that section, and to those that meet it. */
  lemma AnySpellingFinds(items: seq<Item>, closed: bool, section: string, name: string)
    requires WellFormed(items, "")
    ensures LookUp(Parse(FileText(items, closed)).0.table, MakeKey(section, name))
         == ValuesUnder(Bindings(items, "", ""), section, name)
  {
    hide Parse, FileText, WellFormed, Bindings, ValuesOf, MakeKey;
    RoundTrip(items, closed, MakeKey(section, name));
    SpellingsMeet(Bindings(items, "", ""), section, name);
  }

  // ---- Rejected files ----

  lemma {:induction false} FindMeets(s: string, i: nat, c: char)
    requires i <= |s| && c != '\0' && '\0' !in s[i..]
    ensures At(s, Find(s, i, AtChar(c))) == c <==> c in s[i..]
    decreases |s| - i
  {
    if i < |s| {
      assert s[i..] == [s[i]] + s[i + 1..];
      if s[i] != c { FindMeets(s, i + 1, c); }
    }
  }

  lemma {:induction false} SpaceHides(s: string, i: nat, c: char)
    requires i <= |s| && !IsSpace(c)
    ensures c in s[i..] <==> c in s[PastSpace(s, i)..]
    decreases |s| - i
  {
    if i < |s| && IsSpace(s[i]) {
      assert s[i..] == [s[i]] + s[i + 1..];
      SpaceHides(s, i + 1, c);
    }
  }

  lemma TillMeets(s: string, i: nat, c: char)
    requires i <= |s| && c != '\0' && !IsSpace(c) && '\0' !in s
    ensures var (_, j) := TillFrom(s, i, c); At(s, PastSpace(s, j)) == c <==> c in s[i..]
  {
    var from := PastSpace(s, i);
    SpaceHides(s, i, c);
    FindMeets(s, from, c);
    if c !in s[from..] && from < |s| { assert s[from] in s[from..]; }
    PastSpaceStops(s, i);
  }

  lemma {:induction false} PastSpaceStops(s: string, i: nat)
    requires i <= |s|
    ensures var j := PastSpace(s, i); (j < |s| ==> !IsSpace(s[j])) && PastSpace(s, j) == j
    ensures forall k :: i <= k < PastSpace(s, i) ==> IsSpace(s[k])
    decreases |s| - i
  {
    if i < |s| && IsSpace(s[i]) { PastSpaceStops(s, i + 1); }
  }

  /** A line that is neither blank nor a comment is rejected exactly when it is a header without its
      bracket, an indented line under no name, or a line with neither separator. */
  lemma RejectedLines(st: State, line: string)
    requires !st.error && '\0' !in line
    requires var i := PastSpace(line, 0); i < |line| && line[i] != '#'
    ensures var i := PastSpace(line, 0); ParseLine(st, line).error <==>
              if line[i] == '[' then ']' !in line[i + 1..]
              else if i > 0 then st.name == ""
              else '=' !in line && ':' !in line
  {
    var i := PastSpace(line, 0);
    assert line[i] in line;
    PastSpaceStops(line, 0);
    if line[i] == '[' {
      TillMeets(line, i + 1, ']');
    } else if i == 0 {
      assert line[0..] == line;
      TillMeets(line, 0, '=');
      TillMeets(line, 0, ':');
    }
  }

  /** `Parse` reports the number of the first erroneous line and keeps what the lines before it
      bound. */
  lemma {:induction false} FirstErrorIsReported(st: State, lines: seq<string>)
    requires !st.error && ParseLines(st, lines).1 > 0
    ensures var n := ParseLines(st, lines).1; var before := ParseLines(st, lines[..n - 1]);
            before.1 == 0 && ParseLine(before.0, lines[n - 1]).error
            && ParseLines(st, lines).0.table == before.0.table
    decreases |lines|
  {
    var n, next := ParseLines(st, lines).1, ParseLine(st, lines[0]);
    if n > 1 {
      FirstErrorIsReported(next, lines[1..]);
      assert lines[..n - 1] == [lines[0]] + lines[1..][..n - 2];
      FirstLine(st, next, lines[0], lines[1..][..n - 2]);
    }
  }

  // ---- The parser as an object ----

  class LineParser {
    var line: string
    var at: nat

    ghost predicate Valid()
      reads this
    {
      at <= |line|
    }

    constructor ()
      ensures Valid() && line == ""
    {
      line, at := "", 0;
    }

    method Assign(text: string)
      modifies this
      ensures Valid() && line == text && at == 0
    {
      line, at := text, 0;
    }

    method SkipSpace()
      requires Valid()
      modifies `at
      ensures Valid() && at == PastSpace(line, old(at))
    {
      while IsSpace(At(line, at))
        invariant Valid() && PastSpace(line, at) == PastSpace(line, old(at))
        decreases |line| - at
      {
        at := at + 1;
      }
    }

    method Strip(begin: nat, end: nat) returns (token: string)
      requires begin <= end <= |line|
      ensures token == Stripped(line, begin, end)
    {
      var b, e := begin, end;
      while b < e && IsSpace(line[b])
        invariant begin <= b <= e && Stripped(line, b, e) == Stripped(line, begin, end)
      {
        b := b + 1;
      }
      while e > b && IsSpace(line[e - 1])
        invariant b <= e <= end && Stripped(line, b, e) == Stripped(line, begin, end)
        invariant b < e ==> !IsSpace(line[b])
      {
        e := e - 1;
      }
      token := line[b..e];
    }

    method Peek() returns (c: char)
      requires Valid()
      modifies `at
      ensures Valid() && at == PastSpace(line, old(at)) && c == At(line, at)
    {
      SkipSpace();
      c := At(line, at);
    }

    method Skip(n: nat)
      requires at + n <= |line|
      modifies `at
      ensures Valid() && at == old(at) + n
    {
      at := at + n;
    }

    method Match(c: char) returns (met: bool)
      requires Valid()
      modifies `at
      ensures Valid() && at == PastSpace(line, old(at)) && met == (At(line, at) == c)
    {
      SkipSpace();
      met := At(line, at) == c;
    }

    method Till(c: char) returns (token: string)
      requires Valid() && c != '\0'
      modifies `at
      ensures Valid() && (token, at) == TillFrom(line, old(at), c)
    {
      SkipSpace();
      var end := at;
      while At(line, end) != '\0' && At(line, end) != c
        invariant at <= end <= |line| && Find(line, at, AtChar(c)) == Find(line, end, AtChar(c))
        decreases |line| - end
      {
        end := end + 1;
      }
      if At(line, end) != c { return ""; }
      var begin := at;
      at := end;
      token := Strip(begin, end);
    }

    method TillEnd() returns (token: string)
      requires Valid()
      modifies `at
      ensures Valid() && (token, at) == Token(line, old(at), AtSpaceOrHash)
    {
      SkipSpace();
      var end := at;
      while At(line, end) != '\0' && !IsSpace(At(line, end)) && At(line, end) != '#'
        invariant at <= end <= |line| && Find(line, at, AtSpaceOrHash) == Find(line, end, AtSpaceOrHash)
        decreases |line| - end
      {
        end := end + 1;
      }
      var begin := at;
      at := end;
      token := Strip(begin, end);
    }

    method TillSpace() returns (token: string)
      requires Valid()
      modifies `at
      ensures Valid() && (token, at) == Token(line, old(at), AtSpace)
    {
      SkipSpace();
      var end := at;
      while At(line, end) != '\0' && !IsSpace(At(line, end))
        invariant at <= end <= |line| && Find(line, at, AtSpace) == Find(line, end, AtSpace)
        decreases |line| - end
      {
        end := end + 1;
      }
      var begin := at;
      at := end;
      token := Strip(begin, end);
    }
  }

  datatype File = Missing | Readable(text: string)

  class Config {
    var config: Table

    /** Every key that is present lists at least one value. */
    ghost predicate Valid()
      reads this
    {
      NoEmptyList(config)
    }

    constructor ()
      ensures Valid() && config == map[]
    {
      config := map[];
    }

    method PushBack(section: string, name: string, value: string)
      requires Valid()
      modifies this
      ensures Valid() && config == Put(old(config), MakeKey(section, name), value)
    {
      var key := MakeKey(section, name);
      config := config[key := (if key in config then config[key] else []) + [value]];
    }

    /** The body of the loop in `Parse`, for the line the parser has been given. */
    method ReadLine(parser: LineParser, section0: string, name0: string)
      returns (section: string, name: string, error: bool)
      requires Valid() && parser.Valid() && parser.at == 0
      modifies this, parser
      ensures Valid() && parser.Valid()
      ensures State(section, name, config, error)
           == ParseLine(State(section0, name0, old(config), false), old(parser.line))
    {
      hide ParsePair;
      section, name, error := section0, name0, false;
      var c := parser.Peek();
      if c == '#' || c == '\0' {
        return;
      } else if c == '[' {
        parser.Skip(1);
        section := parser.Till(']');
        var met := parser.Match(']');
        error := !met;
        name := "";
      } else if IsSpace(parser.line[0]) {
        if name != "" {
          var value := parser.TillEnd();
          PushBack(section, name, value);
        } else {
          error := true;
        }
      } else {
        name, error := ReadPair(parser, section, name);
      }
    }

    /** The two separators are tried in turn, the cursor being backed up in between. */
    method ReadPair(parser: LineParser, section: string, name0: string) returns (name: string, error: bool)
      requires Valid() && parser.Valid()
      modifies this, parser
      ensures Valid() && parser.Valid()
      ensures State(section, name, config, error)
           == ParsePair(State(section, name0, old(config), false), old(parser.line), old(parser.at))
    {
      hide TillFrom, Token, PastSpace, MakeKey, Put;
      error := false;
      var backup := parser.at;
      name := parser.Till('=');
      var met := parser.Match('=');
      if !met {
        parser.at := backup;
        name := parser.Till(':');
        met := parser.Match(':');
        error := !met;
      }
      if !error {
        parser.Skip(1);
        var value := parser.TillSpace();
        PushBack(section, name, value);
      }
    }

    /** 0 on success, -1 if the file cannot be opened, else the number of the erroneous line. */
    method Parse(file: File) returns (code: int)
      requires Valid()
      modifies this
      ensures Valid()
      ensures file.Missing? ==> code == -1 && config == old(config)
      ensures file.Readable? ==>
                var (after, n) := ParseLines(State("", "", old(config), false), Lines(file.text));
                code == n && config == after.table
    {
      hide ParseLine;
      if file.Missing? { return -1; }
      var rest, lineNum, section, name, error := file.text, 0, "", "", false;
      var parser := new LineParser();
      ghost var whole := ParseLines(State("", "", config, false), Lines(rest));
      while !error && rest != ""
        invariant Valid() && parser.Valid() && fresh(parser)
        invariant error ==> lineNum > 0 && whole == (State(section, name, config, true), lineNum)
        invariant !error ==>
                    var (after, n) := ParseLines(State(section, name, config, false), Lines(rest));
                    whole == (after, if n > 0 then lineNum + n else 0)
        decreases |rest|, !error
      {
        var n := Fetched(rest);
        lineNum := lineNum + 1;
        parser.Assign(rest[..n]);
        rest := rest[n..];
        section, name, error := ReadLine(parser, section, name);
      }
      code := if error then lineNum else 0;
    }

    method GetString(section: string, name: string, defaultValue: string) returns (value: string)
      requires Valid()
      ensures var list := LookUp(config, MakeKey(section, name)); value == if list == [] then defaultValue else list[0]
    {
      var key := MakeKey(section, name);
      value := if key in config then config[key][0] else defaultValue;
    }

    method GetList(section: string, name: string) returns (values: Values)
      ensures values == LookUp(config, MakeKey(section, name))
    {
      var key := MakeKey(section, name);
      values := if key in config then config[key] else [];
    }
  }
}
