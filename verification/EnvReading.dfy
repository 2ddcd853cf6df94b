/** What `parse_env_text` makes of text it did not print: hand-written lines with quoted values,
    trailing words, padding and comments. */
module EnvReading {
  import opened EnvFile
  import opened ShellWords
  import opened Text
  import Shlex

  // ------------------------------------------------------------------ values

  /** A right-hand side that is not empty and not raw JSON. */
  predicate Lexed(rendered: string) {
    rendered != "" && rendered[0] != '[' && rendered[0] != '{'
  }

  /** The value is what the first word means; words behind it are lexed and dropped. */
  lemma FirstWordIsRead(word: Word, rest: string)
    requires WordOk(word) && (rest == "" || Shlex.IsBlank(rest[0])) && Lexed(WordText(word) + rest)
    ensures ParseValue(WordText(word) + rest) ==
            if Shlex.Split(rest).Success? then Success(Meaning(word)) else Failure(Shlex.Split(rest).error)
  {
    SplitWord(word, rest);
  }

  /** Every value that is read has one of four forms, and what is read is told from the form. */
  lemma ValueForms(rendered: string)
    ensures rendered == "" ==> ParseValue(rendered) == Success("")
    ensures rendered != "" && (rendered[0] == '[' || rendered[0] == '{') ==> ParseValue(rendered) == Success(rendered)
    ensures Lexed(rendered) && AllBlank(rendered) ==> ParseValue(rendered) == Success("")
    ensures Lexed(rendered) && !AllBlank(rendered) && ParseValue(rendered).Success? ==>
              exists items: seq<Item>, last: string ::
                && items != [] && ItemsOk(items, last) && rendered == ItemsText(items, last)
                && ParseValue(rendered).value == Meaning(items[0].word)
  {
    if Lexed(rendered) {
      if AllBlank(rendered) {
        SplitBlanks(rendered, "");
        assert rendered + "" == rendered;
      } else if ParseValue(rendered).Success? {
        var items, last := SplitSpelled(rendered);
        SplitItems(items, last);
      }
    }
  }

  function BareWord(s: string): Word {
    if s == "" then [] else [Bare(s[0])] + BareWord(s[1..])
  }

  function SlashedWord(s: string): Word {
    if s == "" then [] else [Escaped(s[0])] + SlashedWord(s[1..])
  }

  function InnerOf(s: string): seq<Inner> {
    if s == "" then []
    else [if s[0] == '"' || s[0] == '\\' then Slashed(s[0]) else Plain(s[0])] + InnerOf(s[1..])
  }

  predicate Unquoted(s: string) {
    forall i | 0 <= i < |s| :: PieceOk(Bare(s[i]))
  }

  /** A string without blanks, quotes and backslashes is a word that means itself. */
  lemma {:induction false} BareIs(s: string)
    requires Unquoted(s)
    ensures PiecesOk(BareWord(s)) && WordText(BareWord(s)) == s && Meaning(BareWord(s)) == s
    ensures s != "" ==> BareWord(s) != []
  {
    if s != "" {
      BareIs(s[1..]);
      assert PieceOk(Bare(s[0])) && BareWord(s)[1..] == BareWord(s[1..]);
    }
  }

  /** With a backslash before every character a string is a word that means it. */
  lemma {:induction false} SlashedIs(s: string)
    ensures PiecesOk(SlashedWord(s)) && Meaning(SlashedWord(s)) == s
    ensures s != "" ==> SlashedWord(s) != []
  {
    if s != "" {
      SlashedIs(s[1..]);
      assert SlashedWord(s)[1..] == SlashedWord(s[1..]);
    }
  }

  /** Between double quotes, with backslashes before double quotes and backslashes. */
  lemma {:induction false} InnerIs(s: string)
    ensures InnerMeaning(InnerOf(s)) == s && forall i | 0 <= i < |InnerOf(s)| :: InnerOk(InnerOf(s)[i])
  {
    if s != "" {
      InnerIs(s[1..]);
      assert InnerOf(s)[1..] == InnerOf(s[1..]);
    }
  }

  lemma OnePiece(p: Piece)
    requires PieceOk(p)
    ensures WordOk([p]) && WordText([p]) == PieceText(p) && Meaning([p]) == PieceMeaning(p)
  {
    assert [p][1..] == [];
    assert WordText([]) == "" && Meaning([]) == "";
  }

  predicate BlankStart(rest: string) {
    rest == "" || Shlex.IsBlank(rest[0])
  }

  /** The four ways to write a value, whatever lexable text follows after a blank. */
  lemma WrittenForms(s: string, rest: string)
    requires BlankStart(rest) && Shlex.Split(rest).Success?
    ensures s != "" && Unquoted(s) && s[0] != '[' && s[0] != '{' ==> ParseValue(s + rest) == Success(s)
    ensures '\'' !in s ==> ParseValue("'" + s + "'" + rest) == Success(s)
    ensures ParseValue("\"" + InnerText(InnerOf(s)) + "\"" + rest) == Success(s)
    ensures s != "" ==> ParseValue(WordText(SlashedWord(s)) + rest) == Success(s)
    ensures ParseValue(Shlex.Quote(s) + rest) == Success(s)
  {
    if s != "" && Unquoted(s) && s[0] != '[' && s[0] != '{' {
      BareIs(s);
      FirstWordIsRead(BareWord(s), rest);
    }
    if '\'' !in s {
      OnePiece(Quoted(s));
      FirstWordIsRead([Quoted(s)], rest);
    }
    InnerIs(s);
    OnePiece(DoubleQuoted(InnerOf(s)));
    FirstWordIsRead([DoubleQuoted(InnerOf(s))], rest);
    if s != "" {
      SlashedIs(s);
      assert WordText(SlashedWord(s))[0] == '\\';
      FirstWordIsRead(SlashedWord(s), rest);
    }
    QuoteIsWord(s, rest);
  }

  /** The printed form of a string is a word that means the string. */
  lemma QuotedWord(s: string) returns (word: Word)
    ensures WordOk(word) && WordText(word) == Shlex.Quote(s) && Meaning(word) == s
  {
    Shlex.SplitQuote(s);
    Shlex.QuoteShape(s);
    var items, last := SplitSpelled(Shlex.Quote(s));
    SplitItems(items, last);
    OneMeaningOnly(items, s);
    assert items[0] in items;
    QuoteEnds(items[0], last, s);
    word := items[0].word;
  }

  /** The printed form of a string, followed by more text. */
  lemma QuoteIsWord(s: string, rest: string)
    requires BlankStart(rest) && Shlex.Split(rest).Success?
    ensures ParseValue(Shlex.Quote(s) + rest) == Success(s)
  {
    Shlex.QuoteShape(s);
    var word := QuotedWord(s);
    FirstWordIsRead(word, rest);
  }

  /** Printed strings with blanks between them. */
  function QuotedList(strings: seq<string>): string {
    if strings == [] then ""
    else if |strings| == 1 then Shlex.Quote(strings[0])
    else Shlex.Quote(strings[0]) + (" " + QuotedList(strings[1..]))
  }

  /** Quoted strings joined by blanks are split into exactly those strings. */
  lemma {:induction false} QuotedListSplits(strings: seq<string>)
    ensures Shlex.Split(QuotedList(strings)) == Success(strings)
  {
    if strings != [] {
      var word := QuotedWord(strings[0]);
      if |strings| == 1 {
        SplitWord(word, "");
        assert WordText(word) + "" == WordText(word) && strings == [strings[0]];
        assert Shlex.Split("") == Success([]) && [Meaning(word)] + [] == strings;
      } else {
        var rest := QuotedList(strings[1..]);
        QuotedListSplits(strings[1..]);
        SplitBlanks(" ", rest);
        SplitWord(word, " " + rest);
        assert strings == [strings[0]] + strings[1..];
      }
    }
  }

  lemma {:induction false} OneEach(items: seq<Item>)
    ensures |Meanings(items)| == |items|
    ensures items != [] ==> Meanings(items)[0] == Meaning(items[0].word)
  {
    if items != [] {
      OneEach(items[1..]);
    }
  }

  lemma OneMeaningOnly(items: seq<Item>, s: string)
    requires Meanings(items) == [s]
    ensures |items| == 1 && Meaning(items[0].word) == s && items == [items[0]]
  {
    OneEach(items);
    assert |items| == 1;
  }

  lemma BlankEnds(a: string, t: string, b: string)
    requires AllBlank(a) && AllBlank(b)
    ensures a != "" || b != "" ==> !Trimmed(a + t + b)
  {
    var s := a + t + b;
    if a != "" {
      assert s[0] == a[0] && Shlex.IsBlank(a[0]);
    } else if b != "" {
      assert s[|s| - 1] == b[|b| - 1] && Shlex.IsBlank(b[|b| - 1]);
    }
  }

  lemma QuoteEnds(item: Item, last: string, s: string)
    requires AllBlank(item.blanks) && AllBlank(last)
    requires Shlex.Quote(s) == ItemsText([item], last)
    ensures Shlex.Quote(s) == WordText(item.word)
  {
    assert [item][1..] == [] && ItemsText([], last) == last;
    Shlex.QuoteShape(s);
    BlankEnds(item.blanks, WordText(item.word), last);
    assert item.blanks + WordText(item.word) + last == WordText(item.word);
  }

  // ------------------------------------------------------------------- lines

  predicate AllSpace(s: string) {
    forall i | 0 <= i < |s| :: IsSpace(s[i])
  }

  /** White space around a trimmed text is stripped. */
  lemma StripPadded(a: string, t: string, b: string)
    requires AllSpace(a) && AllSpace(b) && Trimmed(t)
    ensures Strip(a + t + b) == t
  {
    var s := a + t + b;
    var i, j := StripSlice(s);
    if t != "" {
      assert s[|a|] == t[0] && s[|a| + |t| - 1] == t[|t| - 1];
      assert i == |a| && j == |a| + |t|;
      assert s[i..j] == t;
    } else {
      assert AllSpace(s);
    }
  }

  /** A hand-written assignment: the key and the value may be padded, and what is read does not depend
      on the padding. */
  lemma AssignmentIsRead(a: string, key: string, b: string, c: string, rendered: string, d: string)
    requires AllSpace(a) && AllSpace(b) && AllSpace(c) && AllSpace(d) && KeyOk(key) && Trimmed(rendered)
    ensures var line := a + key + b + "=" + (c + rendered + d);
            && !ParseSkips(line)
            && ParseLine(line) ==
               if ParseValue(rendered).Success? then Success(map[key := ParseValue(rendered).value])
               else Failure(ParseValue(rendered).error)
  {
    var head, tail := a + key + b, c + rendered + d;
    var line := head + ['='] + tail;
    assert line == a + key + b + "=" + (c + rendered + d);
    assert '=' !in head by {
      assert forall i | 0 <= i < |head| :: head[i] in a || head[i] in key || head[i] in b;
    }
    IndexOfUnique(head, '=', tail);
    assert line[..|head|] == head && line[|head| + 1..] == tail && line[|head|] == '=';
    StripPadded(a, key, b);
    StripPadded(c, rendered, d);
    StripHead(head, '=', tail);
  }

  /** Blank lines, comments and lines without `=` are passed over. */
  lemma SkippedLines(a: string, line: string)
    requires AllSpace(a)
    ensures ParseLine(a) == Success(map[]) && ParseLine(a + "#" + line) == Success(map[])
    ensures '=' !in line ==> ParseLine(line) == Success(map[])
  {
    StripPadded(a, "", "");
    assert a + "" + "" == a;
    StripPadded(a, "", "");
    StripHead(a, '#', line);
    assert a + "#" + line == a + ['#'] + line;
  }

  // ------------------------------------------------------------------- texts

  predicate IsFor(line: string, key: string) {
    !ParseSkips(line) && KeyOf(line) == key
  }

  /** The last line for the key. */
  function LastLine(lines: seq<string>, key: string): (n: Option<nat>)
    ensures n.Some? ==> n.value < |lines| && IsFor(lines[n.value], key)
    ensures forall k | 0 <= k < |lines| && IsFor(lines[k], key) :: n.Some? && k <= n.value
  {
    if lines == [] then None
    else if IsFor(lines[|lines| - 1], key) then Some(|lines| - 1)
    else
      var front := lines[..|lines| - 1];
      assert forall k | 0 <= k < |front| :: front[k] == lines[k];
      LastLine(front, key)
  }

  predicate LineReads(line: string) {
    ParseSkips(line) || ParseValue(Strip(ValueOf(line))).Success?
  }

  lemma ParseSnoc(front: seq<string>, last: string)
    ensures var all := ParseLines(front + [last]);
            && (all.Success? <==> ParseLines(front).Success? && LineReads(last))
            && (all.Success? && ParseSkips(last) ==> all.value == ParseLines(front).value)
            && (all.Success? && !ParseSkips(last) ==>
                  all.value == ParseLines(front).value[KeyOf(last) := ParseValue(Strip(ValueOf(last))).value])
  {
    ParseConcat(front, [last]);
    assert [last][1..] == [] && ParseLines([]) == Success(map[]);
    if ParseLine(last).Success? {
      var value := ParseLine(last).value;
      assert value + map[] == value;
    }
  }

  /** A text can be read exactly when every line can. */
  lemma {:induction false} ReadableIff(lines: seq<string>)
    ensures ParseLines(lines).Success? <==> forall i | 0 <= i < |lines| :: LineReads(lines[i])
  {
    if lines != [] {
      var front := lines[..|lines| - 1];
      assert lines == front + [lines[|lines| - 1]];
      ReadableIff(front);
      ParseSnoc(front, lines[|lines| - 1]);
      assert forall i | 0 <= i < |front| :: front[i] == lines[i];
    }
  }

  /** Of several lines for a key the last one says what is read. */
  lemma {:induction false} LastLineWins(lines: seq<string>, key: string)
    requires ParseLines(lines).Success?
    ensures key in ParseLines(lines).value <==> LastLine(lines, key).Some?
    ensures LastLine(lines, key).Some? ==>
              ParseValue(Strip(ValueOf(lines[LastLine(lines, key).value]))) == Success(ParseLines(lines).value[key])
  {
    if lines != [] {
      var front, last := lines[..|lines| - 1], lines[|lines| - 1];
      assert lines == front + [last];
      ParseSnoc(front, last);
      LastLineWins(front, key);
    }
  }
}
