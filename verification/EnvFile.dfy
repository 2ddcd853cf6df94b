/** Printing and parsing of env files (`render_env`, `parse_env_text`). */
module EnvFile {
  import opened Text
  import Shlex

  // ----------------------------------------------------------------- lines

  /** Lines `render_env` copies unchanged. */
  predicate RenderCopies(line: string) {
    var stripped := Strip(line);
    stripped == [] || stripped[0] == '#' || '=' !in stripped
  }

  /** Lines `parse_env_text` passes over. */
  predicate ParseSkips(line: string) {
    var stripped := Strip(line);
    stripped == [] || stripped[0] == '#' || '=' !in line
  }

  function KeyOf(line: string): string {
    Strip(line[..IndexOf(line, '=')])
  }

  /** The raw text after the first `=`. */
  function ValueOf(line: string): string
    requires '=' in line
  {
    line[IndexOf(line, '=') + 1..]
  }

  // ---------------------------------------------------------------- render

  function RenderValue(value: string): string {
    if value == "" then "" else Shlex.Quote(value)
  }

  function Entry(key: string, value: string): string {
    key + "=" + RenderValue(value)
  }

  function RenderLine(line: string, overrides: map<string, string>): string {
    if RenderCopies(line) then line
    else
      StripMember(line, '=');
      var key := KeyOf(line);
      Entry(key, if key in overrides then overrides[key] else ValueOf(line))
  }

  function RenderBody(template: seq<string>, overrides: map<string, string>): seq<string> {
    if template == [] then []
    else [RenderLine(RStripNewlines(template[0]), overrides)] + RenderBody(template[1..], overrides)
  }

  /** The override keys the template mentions. */
  function Seen(template: seq<string>, overrides: map<string, string>): set<string> {
    if template == [] then {}
    else
      var line := RStripNewlines(template[0]);
      (if !RenderCopies(line) && KeyOf(line) in overrides then {KeyOf(line)} else {})
      + Seen(template[1..], overrides)
  }

  function Appended(keys: seq<string>, overrides: map<string, string>): seq<string>
    requires forall k | k in keys :: k in overrides
  {
    if keys == [] then []
    else [Entry(keys[0], overrides[keys[0]])] + Appended(keys[1..], overrides)
  }

  function RenderLines(template: seq<string>, overrides: map<string, string>): seq<string> {
    RenderBody(template, overrides)
    + Appended(SortedKeys(overrides.Keys - Seen(template, overrides)), overrides)
  }

  function RenderText(template: seq<string>, overrides: map<string, string>): string {
    Unlines(RenderLines(template, overrides))
  }

  /** `render_env`: the loop over the template, then the loop over the keys it did not mention. */
  method RenderEnv(template: seq<string>, overrides: map<string, string>) returns (text: string)
    ensures text == RenderText(template, overrides)
  {
    var body, seen := CopyTemplate(template, overrides);
    var output := AppendEntries(body, SortedKeys(overrides.Keys - seen), overrides);
    JoinIsUnlines(output);
    text := JoinLines(output + [""]);
  }

  method CopyTemplate(template: seq<string>, overrides: map<string, string>)
    returns (output: seq<string>, seen: set<string>)
    ensures output == RenderBody(template, overrides) && seen == Seen(template, overrides)
  {
    output, seen := [], {};
    ghost var body, used := RenderBody(template, overrides), Seen(template, overrides);
    ghost var bodyLeft, usedLeft := body, used;
    assert template[0..] == template;
    for i := 0 to |template|
      invariant bodyLeft == RenderBody(template[i..], overrides) && output + bodyLeft == body
      invariant usedLeft == Seen(template[i..], overrides) && seen + usedLeft == used
    {
      var rendered, key := RenderOne(RStripNewlines(template[i]), overrides);
      RenderStep(template, overrides, i);
      bodyLeft, usedLeft := RenderBody(template[i + 1..], overrides), Seen(template[i + 1..], overrides);
      output := output + [rendered];
      seen := seen + key;
    }
    assert template[|template|..] == [];
  }

  method RenderOne(line: string, overrides: map<string, string>)
    returns (rendered: string, used: set<string>)
    ensures rendered == RenderLine(line, overrides)
    ensures used == if !RenderCopies(line) && KeyOf(line) in overrides then {KeyOf(line)} else {}
  {
    if RenderCopies(line) {
      return line, {};
    }
    StripMember(line, '=');
    var key := KeyOf(line);
    if key in overrides {
      return key + "=" + RenderValue(overrides[key]), {key};
    }
    return key + "=" + RenderValue(ValueOf(line)), {};
  }

  lemma RenderStep(template: seq<string>, overrides: map<string, string>, i: nat)
    requires i < |template|
    ensures var line, rest := RStripNewlines(template[i]), template[i + 1..];
            && RenderBody(template[i..], overrides) ==
               [RenderLine(line, overrides)] + RenderBody(rest, overrides)
            && Seen(template[i..], overrides) ==
               (if !RenderCopies(line) && KeyOf(line) in overrides then {KeyOf(line)} else {})
               + Seen(rest, overrides)
  {
    assert template[i..][1..] == template[i + 1..];
  }

  method AppendEntries(body: seq<string>, keys: seq<string>, overrides: map<string, string>)
    returns (output: seq<string>)
    requires forall k | k in keys :: k in overrides
    ensures output == body + Appended(keys, overrides)
  {
    output := body;
    for i := 0 to |keys|
      invariant output + Appended(keys[i..], overrides) == body + Appended(keys, overrides)
    {
      assert keys[i..][1..] == keys[i + 1..];
      output := output + [keys[i] + "=" + RenderValue(overrides[keys[i]])];
    }
    assert keys[|keys|..] == [];
  }

  lemma {:induction false} JoinIsUnlines(lines: seq<string>)
    ensures JoinLines(lines + [""]) == Unlines(lines)
  {
    if lines != [] {
      assert (lines + [""])[1..] == lines[1..] + [""];
      JoinIsUnlines(lines[1..]);
    }
  }

  // ----------------------------------------------------------------- parse

  /** The value of a stripped right-hand side: empty, raw JSON, or the first shell token. */
  function ParseValue(rendered: string): Result<string> {
    if rendered == "" then Success("")
    else if rendered[0] == '[' || rendered[0] == '{' then Success(rendered)
    else
      var tokens :- Shlex.Split(rendered);
      Success(if tokens == [] then "" else tokens[0])
  }

  function ParseLine(line: string): Result<map<string, string>> {
    if ParseSkips(line) then Success(map[])
    else
      var value :- ParseValue(Strip(ValueOf(line)));
      Success(map[KeyOf(line) := value])
  }

  /** Later lines win. */
  function ParseLines(lines: seq<string>): Result<map<string, string>> {
    if lines == [] then Success(map[])
    else
      var first :- ParseLine(lines[0]);
      var rest :- ParseLines(lines[1..]);
      Success(first + rest)
  }

  function ParseText(text: string): Result<map<string, string>> {
    ParseLines(SplitLines(text))
  }

  /** The result of a parse that has already collected `values`. */
  function Extend(values: map<string, string>, rest: Result<map<string, string>>): Result<map<string, string>> {
    match rest
    case Failure(error) => Failure(error)
    case Success(more) => Success(values + more)
  }

  lemma ParseStep(lines: seq<string>, i: nat, values: map<string, string>)
    requires i < |lines|
    ensures var first := ParseLine(lines[i]);
            Extend(values, ParseLines(lines[i..])) ==
            if first.Failure? then Failure(first.error)
            else Extend(values + first.value, ParseLines(lines[i + 1..]))
  {
    assert lines[i..][1..] == lines[i + 1..];
    var first, rest := ParseLine(lines[i]), ParseLines(lines[i + 1..]);
    if first.Success? && rest.Success? {
      assert values + first.value + rest.value == values + (first.value + rest.value);
    }
  }

  lemma ExtendEmpty(values: map<string, string>, rest: Result<map<string, string>>)
    ensures Extend(map[], rest) == rest
    ensures values + map[] == values
  {
    if rest.Success? {
      assert map[] + rest.value == rest.value;
    }
  }

  /** One round of the loop: a skipped line changes nothing, any other sets its key. */
  method ParseOne(line: string, values: map<string, string>) returns (r: Result<map<string, string>>)
    ensures r == Extend(values, ParseLine(line))
  {
    if ParseSkips(line) {
      ExtendEmpty(values, Success(map[]));
      return Success(values);
    }
    var parsed := ParseValue(Strip(ValueOf(line)));
    if parsed.Failure? {
      return Failure(parsed.error);
    }
    assert values + map[KeyOf(line) := parsed.value] == values[KeyOf(line) := parsed.value];
    r := Success(values[KeyOf(line) := parsed.value]);
  }

  /** `parse_env_text`: the loop writing into `values`; a quoting error aborts it. */
  method ParseEnvText(text: string) returns (result: Result<map<string, string>>)
    ensures result == ParseText(text)
  {
    var lines := SplitLines(text);
    var values: map<string, string> := map[];
    ExtendEmpty(values, ParseLines(lines));
    assert lines[0..] == lines;
    for i := 0 to |lines|
      invariant Extend(values, ParseLines(lines[i..])) == ParseLines(lines)
    {
      ParseStep(lines, i, values);
      var next := ParseOne(lines[i], values);
      if next.Failure? {
        return next;
      }
      values := next.value;
    }
    assert lines[|lines|..] == [];
    ExtendEmpty(values, Success(map[]));
    result := Success(values);
  }

  // ------------------------------------------------------- well-formed keys

  /** Keys the format can carry. */
  predicate KeyOk(key: string) {
    && Trimmed(key)
    && OneLine(key)
    && '=' !in key
    && (key == [] || key[0] != '#')
  }

  lemma SplitAtEquals(line: string)
    requires '=' in line
    ensures line == line[..IndexOf(line, '=')] + ['='] + ValueOf(line)
    ensures '=' !in line[..IndexOf(line, '=')]
  {
  }

  lemma CopiesIffSkips(line: string)
    ensures RenderCopies(line) <==> ParseSkips(line)
  {
    StripMember(line, '=');
  }

  /** Every key the parser can produce is well formed. */
  lemma KeyOfOk(line: string)
    requires OneLine(line) && !ParseSkips(line)
    ensures KeyOk(KeyOf(line))
  {
    SplitAtEquals(line);
    var head := line[..IndexOf(line, '=')];
    StripTwice(head);
    StripMember(head, '=');
    StripKeepsOneLine(head);
    StripHead(head, '=', ValueOf(line));
  }

  lemma {:induction false} ParsedKeysOk(lines: seq<string>)
    requires AllOneLine(lines)
    ensures ParseLines(lines).Success? ==> forall k | k in ParseLines(lines).value :: KeyOk(k)
  {
    if lines != [] {
      assert OneLine(lines[0]);
      if !ParseSkips(lines[0]) {
        KeyOfOk(lines[0]);
      }
      ParsedKeysOk(lines[1..]);
    }
  }

  predicate ValuesOneLine(values: map<string, string>) {
    forall k | k in values :: OneLine(values[k])
  }

  lemma ParsedValueOneLine(rendered: string)
    requires OneLine(rendered)
    ensures ParseValue(rendered).Success? ==> OneLine(ParseValue(rendered).value)
  {
    Shlex.SplitKeepsOneLine(rendered);
  }

  /** No value the parser can produce holds a line break. */
  lemma {:induction false} ParsedValuesOneLine(lines: seq<string>)
    requires AllOneLine(lines)
    ensures ParseLines(lines).Success? ==> ValuesOneLine(ParseLines(lines).value)
  {
    if lines != [] {
      var line := lines[0];
      assert OneLine(line);
      if !ParseSkips(line) {
        StripKeepsOneLine(ValueOf(line));
        ParsedValueOneLine(Strip(ValueOf(line)));
      }
      ParsedValuesOneLine(lines[1..]);
    }
  }

  // ------------------------------------------------------------ round trip

  lemma Partition(key: string, rendered: string)
    requires KeyOk(key)
    ensures var line := key + "=" + rendered;
            !ParseSkips(line) && KeyOf(line) == key && '=' in line && ValueOf(line) == rendered
  {
    var line := key + "=" + rendered;
    assert line == key + ['='] + rendered;
    IndexOfUnique(key, '=', rendered);
    assert line[..|key|] == key && line[|key| + 1..] == rendered;
    assert line[|key|] == '=';
    StripOfTrimmed(key);
    StripHead(key, '=', rendered);
  }

  /** One printed entry reads back as exactly its key and value. */
  lemma EntryRoundTrip(key: string, value: string)
    requires KeyOk(key)
    ensures !ParseSkips(Entry(key, value))
    ensures ParseLine(Entry(key, value)) == Success(map[key := value])
  {
    Partition(key, RenderValue(value));
    if value != "" {
      Shlex.QuoteShape(value);
      StripOfTrimmed(RenderValue(value));
      Shlex.SplitQuote(value);
    }
  }

  function LineMap(line: string): map<string, string> {
    if ParseSkips(line) then map[] else map[KeyOf(line) := ValueOf(line)]
  }

  /** What the template says by itself: the raw text after the first `=`, last line winning. */
  function TemplateMap(template: seq<string>): map<string, string> {
    if template == [] then map[]
    else LineMap(RStripNewlines(template[0])) + TemplateMap(template[1..])
  }

  function Overlay(own: map<string, string>, overrides: map<string, string>): map<string, string> {
    map k | k in own :: if k in overrides then overrides[k] else own[k]
  }

  /** Each template line, without its line feed, is a single line. */
  predicate TemplateOk(template: seq<string>) {
    forall i | 0 <= i < |template| :: OneLine(RStripNewlines(template[i]))
  }

  lemma {:induction false} ParseConcat(a: seq<string>, b: seq<string>)
    ensures ParseLines(a + b).Success? <==> ParseLines(a).Success? && ParseLines(b).Success?
    ensures ParseLines(a + b).Success? ==>
              ParseLines(a + b).value == ParseLines(a).value + ParseLines(b).value
  {
    if a == [] {
      assert a + b == b;
    } else {
      assert (a + b)[1..] == a[1..] + b;
      ParseConcat(a[1..], b);
    }
  }

  lemma ParseFirst(line: string, first: map<string, string>, rest: seq<string>)
    requires ParseLine(line) == Success(first) && ParseLines(rest).Success?
    ensures ParseLines([line] + rest) == Success(first + ParseLines(rest).value)
  {
    assert ([line] + rest)[1..] == rest;
  }

  lemma OverlayOne(key: string, own: string, overrides: map<string, string>)
    ensures Overlay(map[key := own], overrides) ==
            map[key := if key in overrides then overrides[key] else own]
  {
  }

  lemma RenderedLine(line: string, overrides: map<string, string>)
    requires OneLine(line)
    ensures ParseLine(RenderLine(line, overrides)) == Success(Overlay(LineMap(line), overrides))
  {
    CopiesIffSkips(line);
    if ParseSkips(line) {
      assert Overlay(map[], overrides) == map[];
    } else {
      var key := KeyOf(line);
      KeyOfOk(line);
      OverlayOne(key, ValueOf(line), overrides);
      EntryRoundTrip(key, if key in overrides then overrides[key] else ValueOf(line));
    }
  }

  lemma {:induction false} ParseBody(template: seq<string>, overrides: map<string, string>)
    requires TemplateOk(template)
    ensures ParseLines(RenderBody(template, overrides)) ==
            Success(Overlay(TemplateMap(template), overrides))
  {
    if template != [] {
      var line, rest := RStripNewlines(template[0]), template[1..];
      assert OneLine(RStripNewlines(template[0]));
      RenderedLine(line, overrides);
      ParseBody(rest, overrides);
      ParseFirst(RenderLine(line, overrides), Overlay(LineMap(line), overrides), RenderBody(rest, overrides));
      OverlaySum(LineMap(line), TemplateMap(rest), overrides);
    } else {
      assert Overlay(map[], overrides) == map[];
    }
  }

  lemma OverlaySum(a: map<string, string>, b: map<string, string>, overrides: map<string, string>)
    ensures Overlay(a, overrides) + Overlay(b, overrides) == Overlay(a + b, overrides)
  {
  }

  lemma {:induction false} SeenIs(template: seq<string>, overrides: map<string, string>)
    ensures Seen(template, overrides) == TemplateMap(template).Keys * overrides.Keys
  {
    if template != [] {
      CopiesIffSkips(RStripNewlines(template[0]));
      SeenIs(template[1..], overrides);
    }
  }

  function Entries(keys: seq<string>, overrides: map<string, string>): (m: map<string, string>)
    requires forall k | k in keys :: k in overrides
    ensures forall k :: k in m <==> k in keys
    ensures forall k | k in m :: m[k] == overrides[k]
  {
    if keys == [] then map[]
    else
      assert keys == [keys[0]] + keys[1..];
      map[keys[0] := overrides[keys[0]]] + Entries(keys[1..], overrides)
  }

  lemma {:induction false} ParseAppended(keys: seq<string>, overrides: map<string, string>)
    requires forall k | k in keys :: k in overrides && KeyOk(k)
    ensures ParseLines(Appended(keys, overrides)) == Success(Entries(keys, overrides))
  {
    if keys != [] {
      var first, rest := keys[0], keys[1..];
      EntryRoundTrip(first, overrides[first]);
      ParseAppended(rest, overrides);
      ParseFirst(Entry(first, overrides[first]), map[first := overrides[first]], Appended(rest, overrides));
    }
  }

  /** The overrides `render_env` can carry: well-formed keys, values without line breaks. */
  predicate Carries(overrides: map<string, string>) {
    forall k | k in overrides :: KeyOk(k) && OneLine(overrides[k])
  }

  lemma BodyAndEntries(template: seq<string>, overrides: map<string, string>, keys: seq<string>)
    requires forall k :: k in keys <==> k in overrides && k !in TemplateMap(template)
    ensures Overlay(TemplateMap(template), overrides) + Entries(keys, overrides) == TemplateMap(template) + overrides
  {
  }

  /** Printed as lines, everything reads back, whatever the values. */
  lemma LinesRoundTrip(template: seq<string>, overrides: map<string, string>)
    requires TemplateOk(template)
    requires forall k | k in overrides :: KeyOk(k)
    ensures ParseLines(RenderLines(template, overrides)) == Success(TemplateMap(template) + overrides)
  {
    var keys := SortedKeys(overrides.Keys - Seen(template, overrides));
    ParseBody(template, overrides);
    SeenIs(template, overrides);
    ParseAppended(keys, overrides);
    ParseConcat(RenderBody(template, overrides), Appended(keys, overrides));
    BodyAndEntries(template, overrides, keys);
  }

  lemma EntryOneLine(key: string, value: string)
    requires OneLine(key) && OneLine(value)
    ensures OneLine(Entry(key, value))
  {
    if value != "" {
      Shlex.QuoteShape(value);
    }
  }

  lemma {:induction false} RenderedOneLine(template: seq<string>, overrides: map<string, string>)
    requires TemplateOk(template) && Carries(overrides)
    ensures AllOneLine(RenderBody(template, overrides))
  {
    if template != [] {
      var line := RStripNewlines(template[0]);
      assert OneLine(RStripNewlines(template[0]));
      RenderedOneLine(template[1..], overrides);
      if !RenderCopies(line) {
        StripMember(line, '=');
        StripKeepsOneLine(line[..IndexOf(line, '=')]);
        var key := KeyOf(line);
        EntryOneLine(key, if key in overrides then overrides[key] else ValueOf(line));
      }
    }
  }

  lemma {:induction false} AppendedOneLine(keys: seq<string>, overrides: map<string, string>)
    requires Carries(overrides) && forall k | k in keys :: k in overrides
    ensures AllOneLine(Appended(keys, overrides))
  {
    if keys != [] {
      EntryOneLine(keys[0], overrides[keys[0]]);
      AppendedOneLine(keys[1..], overrides);
    }
  }

  lemma RenderLinesOneLine(template: seq<string>, overrides: map<string, string>)
    requires TemplateOk(template) && Carries(overrides)
    ensures AllOneLine(RenderLines(template, overrides))
  {
    RenderedOneLine(template, overrides);
    AppendedOneLine(SortedKeys(overrides.Keys - Seen(template, overrides)), overrides);
  }

  /** Parse undoes render. */
  lemma RoundTrip(template: seq<string>, overrides: map<string, string>)
    requires TemplateOk(template) && Carries(overrides)
    ensures ParseText(RenderText(template, overrides)) == Success(TemplateMap(template) + overrides)
  {
    RenderLinesOneLine(template, overrides);
    SplitUnlines(RenderLines(template, overrides));
    LinesRoundTrip(template, overrides);
  }

  // --------------------------------------------- what cannot be carried

  /** White space before the cut is stripped, but the quotation stays open. */
  lemma {:induction false} RStripOpenQuote(s: string)
    ensures RStrip("'" + Shlex.EscapeSingleQuotes(s)) == "'" + Shlex.EscapeSingleQuotes(RStrip(s))
  {
    if s != [] {
      var front, last := s[..|s| - 1], s[|s| - 1];
      assert s == front + [last];
      Shlex.EscapeConcat(front, [last]);
      var quoted := "'" + Shlex.EscapeSingleQuotes(s);
      var escaped := if last == '\'' then "'\"'\"'" else [last];
      assert Shlex.EscapeSingleQuotes([last]) == escaped + [] == escaped;
      assert quoted == ("'" + Shlex.EscapeSingleQuotes(front)) + escaped;
      if IsSpace(last) {
        assert quoted[..|quoted| - 1] == "'" + Shlex.EscapeSingleQuotes(front);
        RStripOpenQuote(front);
      }
    }
  }

  lemma StripOpenQuote(s: string)
    ensures Strip("'" + Shlex.EscapeSingleQuotes(s)) == "'" + Shlex.EscapeSingleQuotes(RStrip(s))
  {
    var quoted := "'" + Shlex.EscapeSingleQuotes(s);
    assert quoted[0] == '\'';
    assert LStrip(quoted) == quoted;
    RStripOpenQuote(s);
  }

  lemma OpenValueFails(value: string)
    ensures ParseValue("'" + Shlex.EscapeSingleQuotes(value)).Failure?
  {
    assert ("'" + Shlex.EscapeSingleQuotes(value))[0] == '\'';
    Shlex.OpenQuoteFails(value);
  }

  /** The part of an entry before the first line break of its value does not parse. */
  lemma CutEntryFails(key: string, value: string)
    requires KeyOk(key)
    ensures ParseLine(key + "=" + ("'" + Shlex.EscapeSingleQuotes(value))).Failure?
  {
    Partition(key, "'" + Shlex.EscapeSingleQuotes(value));
    StripOpenQuote(value);
    OpenValueFails(RStrip(value));
  }

  lemma QuoteCut(value: string, n: nat)
    requires n < |value| && IsLineBreak(value[n]) && OneLine(value[..n])
    ensures var front := "'" + Shlex.EscapeSingleQuotes(value[..n]);
            && OneLine(front)
            && front <= Shlex.Quote(value)
            && |front| < |Shlex.Quote(value)| && Shlex.Quote(value)[|front|] == value[n]
  {
    var front, rest := value[..n], value[n..];
    assert value == front + rest;
    Shlex.EscapeConcat(front, rest);
    Shlex.EscapeKeepsOneLine(front);
    assert !Shlex.IsSafe(value[n]);
    var tail := Shlex.EscapeSingleQuotes(rest) + "'";
    assert tail[0] == value[n];
    assert Shlex.Quote(value) == ("'" + Shlex.EscapeSingleQuotes(front)) + tail;
  }

  /** Where the first line break of a printed value falls. */
  lemma EntryCut(key: string, value: string) returns (cut: string, n: nat)
    requires OneLine(key) && !OneLine(value)
    ensures n < |value| && cut == key + "=" + ("'" + Shlex.EscapeSingleQuotes(value[..n]))
    ensures OneLine(cut) && |cut| < |Entry(key, value)| && IsLineBreak(Entry(key, value)[|cut|])
    ensures cut <= Entry(key, value)
  {
    n := LineLength(value);
    QuoteCut(value, n);
    var front := "'" + Shlex.EscapeSingleQuotes(value[..n]);
    cut := (key + "=") + front;
    assert Entry(key, value) == (key + "=") + Shlex.Quote(value);
  }

  lemma SplitAtBreak(line: string, cut: string, rest: string)
    requires OneLine(cut) && |cut| < |line| && cut <= line && IsLineBreak(line[|cut|])
    ensures SplitLines(line + rest) != [] && SplitLines(line + rest)[0] == cut
  {
    var s := line + rest;
    assert s[|cut|] == line[|cut|];
    assert forall i | 0 <= i < |cut| :: s[i] == cut[i];
    assert LineLength(s) == |cut|;
    assert s[..|cut|] == cut;
  }

  ghost predicate BrokenEntry(line: string, overrides: map<string, string>) {
    exists k :: k in overrides && line == Entry(k, overrides[k]) && !OneLine(overrides[k])
  }

  lemma BrokenFirstFails(line: string, rest: string, overrides: map<string, string>)
    requires forall k | k in overrides :: KeyOk(k)
    requires BrokenEntry(line, overrides)
    ensures ParseText(line + "\n" + rest).Failure?
  {
    var k :| k in overrides && line == Entry(k, overrides[k]) && !OneLine(overrides[k]);
    var cut, n := EntryCut(k, overrides[k]);
    assert line + "\n" + rest == line + ("\n" + rest);
    SplitAtBreak(line, cut, "\n" + rest);
    CutEntryFails(k, overrides[k][..n]);
  }

  lemma {:induction false} BrokenEntryFails(lines: seq<string>, overrides: map<string, string>, i: nat)
    requires forall k | k in overrides :: KeyOk(k)
    requires i < |lines| && BrokenEntry(lines[i], overrides) && AllOneLine(lines[..i])
    ensures ParseText(Unlines(lines)).Failure?
  {
    var first, rest := lines[0], Unlines(lines[1..]);
    if i == 0 {
      BrokenFirstFails(first, rest, overrides);
    } else {
      assert OneLine(lines[..i][0]);
      assert lines[1..][..i - 1] == lines[..i][1..];
      BrokenEntryFails(lines[1..], overrides, i - 1);
      SplitFirstLine(first, rest);
      assert ([first] + SplitLines(rest))[1..] == SplitLines(rest);
    }
  }

  /** A printed line is a single line unless it carries a value with a line break. */
  lemma LineShape(line: string, overrides: map<string, string>)
    requires OneLine(line) && forall k | k in overrides :: KeyOk(k)
    ensures OneLine(RenderLine(line, overrides)) || BrokenEntry(RenderLine(line, overrides), overrides)
  {
    CopiesIffSkips(line);
    if !ParseSkips(line) {
      var key := KeyOf(line);
      KeyOfOk(line);
      if key !in overrides || OneLine(overrides[key]) {
        EntryOneLine(key, if key in overrides then overrides[key] else ValueOf(line));
      }
    }
  }

  lemma {:induction false} BodyShape(template: seq<string>, overrides: map<string, string>, i: nat)
    requires TemplateOk(template) && forall k | k in overrides :: KeyOk(k)
    requires i < |RenderBody(template, overrides)|
    ensures var line := RenderBody(template, overrides)[i];
            OneLine(line) || BrokenEntry(line, overrides)
  {
    assert OneLine(RStripNewlines(template[0]));
    if i == 0 {
      LineShape(RStripNewlines(template[0]), overrides);
    } else {
      BodyShape(template[1..], overrides, i - 1);
    }
  }

  lemma EntryShape(key: string, overrides: map<string, string>)
    requires key in overrides && KeyOk(key)
    ensures var line := Entry(key, overrides[key]); OneLine(line) || BrokenEntry(line, overrides)
  {
    if OneLine(overrides[key]) {
      EntryOneLine(key, overrides[key]);
    }
  }

  lemma {:induction false} AppendedShape(keys: seq<string>, overrides: map<string, string>, i: nat)
    requires forall k | k in overrides :: KeyOk(k)
    requires forall k | k in keys :: k in overrides
    requires i < |Appended(keys, overrides)|
    ensures var line := Appended(keys, overrides)[i];
            OneLine(line) || BrokenEntry(line, overrides)
  {
    if i == 0 {
      EntryShape(keys[0], overrides);
    } else {
      AppendedShape(keys[1..], overrides, i - 1);
    }
  }

  lemma {:induction false} BodyMentions(template: seq<string>, overrides: map<string, string>, key: string)
    requires key in Seen(template, overrides)
    ensures key in overrides && Entry(key, overrides[key]) in RenderBody(template, overrides)
  {
    var line := RStripNewlines(template[0]);
    var body := RenderBody(template, overrides);
    if !RenderCopies(line) && key == KeyOf(line) && key in overrides {
      assert body[0] == Entry(key, overrides[key]);
    } else {
      BodyMentions(template[1..], overrides, key);
      assert body[1..] == RenderBody(template[1..], overrides);
      assert forall x | x in body[1..] :: x in body;
    }
  }

  lemma {:induction false} AppendedMentions(keys: seq<string>, overrides: map<string, string>, key: string)
    requires key in keys && forall k | k in keys :: k in overrides
    ensures Entry(key, overrides[key]) in Appended(keys, overrides)
  {
    if key != keys[0] {
      AppendedMentions(keys[1..], overrides, key);
    }
  }

  /** Every override is printed. */
  lemma Mentions(template: seq<string>, overrides: map<string, string>, key: string)
    requires key in overrides
    ensures Entry(key, overrides[key]) in RenderLines(template, overrides)
  {
    var seen := Seen(template, overrides);
    if key in seen {
      BodyMentions(template, overrides, key);
    } else {
      AppendedMentions(SortedKeys(overrides.Keys - seen), overrides, key);
    }
  }

  lemma FirstBreak(lines: seq<string>, broken: string) returns (i: nat)
    requires broken in lines && !OneLine(broken)
    ensures i < |lines| && !OneLine(lines[i]) && AllOneLine(lines[..i])
  {
    i := 0;
    while OneLine(lines[i])
      invariant i < |lines| && AllOneLine(lines[..i])
      invariant broken in lines[i..]
      decreases |lines| - i
    {
      i := i + 1;
    }
  }

  /** A value with a line break makes the whole file unreadable. */
  lemma BrokenValueFails(template: seq<string>, overrides: map<string, string>, key: string)
    requires TemplateOk(template) && forall k | k in overrides :: KeyOk(k)
    requires key in overrides && !OneLine(overrides[key])
    ensures ParseText(RenderText(template, overrides)).Failure?
  {
    var body := RenderBody(template, overrides);
    var keys := SortedKeys(overrides.Keys - Seen(template, overrides));
    var lines := RenderLines(template, overrides);
    var cut, n := EntryCut(key, overrides[key]);
    Mentions(template, overrides, key);
    var i := FirstBreak(lines, Entry(key, overrides[key]));
    if i < |body| {
      BodyShape(template, overrides, i);
    } else {
      AppendedShape(keys, overrides, i - |body|);
    }
    BrokenEntryFails(lines, overrides, i);
  }

  /** Parse undoes render exactly for the overrides the format can carry: on a template of single
      lines the printed text reads back as the template's raw values overridden by `overrides`
      if and only if every key is well formed and no value holds a line break. */
  lemma ParseUndoesRender(template: seq<string>, overrides: map<string, string>)
    requires TemplateOk(template)
    ensures ParseText(RenderText(template, overrides)) == Success(TemplateMap(template) + overrides)
            <==> Carries(overrides)
  {
    if Carries(overrides) {
      RoundTrip(template, overrides);
    } else if ParseText(RenderText(template, overrides)) == Success(TemplateMap(template) + overrides) {
      ParsedKeysOk(SplitLines(RenderText(template, overrides)));
      assert forall k | k in overrides :: k in TemplateMap(template) + overrides;
      var key :| key in overrides && !OneLine(overrides[key]);
      BrokenValueFails(template, overrides, key);
    }
  }
}
