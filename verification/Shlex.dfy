/** `shlex.quote` and the POSIX tokenizer behind `shlex.split`, the quoting of IEEE Std 1003.1,
    Shell Command Language, section 2.2. */
module Shlex {
  import opened Text

  // ------------------------------------------------------------------ quote

  /** The characters `shlex.quote` leaves unquoted. */
  predicate IsSafe(c: char) {
    || 'a' <= c <= 'z' || 'A' <= c <= 'Z' || '0' <= c <= '9'
    || c in {'_', '@', '%', '+', '=', ':', ',', '.', '/', '-'}
  }

  predicate AllSafe(s: string) {
    forall i | 0 <= i < |s| :: IsSafe(s[i])
  }

  /** `s.replace("'", "'\"'\"'")` */
  function EscapeSingleQuotes(s: string): string {
    if s == [] then []
    else (if s[0] == '\'' then "'\"'\"'" else [s[0]]) + EscapeSingleQuotes(s[1..])
  }

  function Quote(s: string): string {
    if s == [] then "''"
    else if AllSafe(s) then s
    else "'" + EscapeSingleQuotes(s) + "'"
  }

  // -------------------------------------------------------------- tokenizer

  datatype Mode =
    | Start                       // between tokens
    | Word                        // inside a token, outside quotes
    | Single                      // inside single quotes (section 2.2.2)
    | Double                      // inside double quotes (section 2.2.3)
    | Escape(inDouble: bool)      // after a backslash

  /** `token` and `quoted` are the token under way; `out` holds the tokens already emitted. */
  datatype State = State(mode: Mode, token: string, quoted: bool, out: seq<string>)

  const Initial := State(Start, [], false, [])

  predicate IsBlank(c: char) {
    c in {' ', '\t', '\r', '\n'}
  }

  function Emit(st: State): State {
    if st.token != [] || st.quoted then State(Start, [], false, st.out + [st.token])
    else st.(mode := Start)
  }

  function Step(st: State, c: char): State {
    match st.mode
    case Start =>
      if IsBlank(c) then Emit(st)
      else if c == '\\' then st.(mode := Escape(false))
      else if c == '\'' then st.(mode := Single)
      else if c == '"' then st.(mode := Double)
      else st.(mode := Word, token := [c])
    case Word =>
      if IsBlank(c) then Emit(st)
      else if c == '\\' then st.(mode := Escape(false))
      else if c == '\'' then st.(mode := Single)
      else if c == '"' then st.(mode := Double)
      else st.(token := st.token + [c])
    case Single =>
      if c == '\'' then st.(mode := Word, quoted := true)
      else st.(token := st.token + [c], quoted := true)
    case Double =>
      if c == '"' then st.(mode := Word, quoted := true)
      else if c == '\\' then st.(mode := Escape(true), quoted := true)
      else st.(token := st.token + [c], quoted := true)
    case Escape(inDouble) =>
      // Inside double quotes a backslash is kept unless it precedes `\` or `"`.
      var kept := if inDouble && c != '\\' && c != '"' then ['\\', c] else [c];
      st.(mode := if inDouble then Double else Word, token := st.token + kept)
  }

  function Run(st: State, s: string): State
    decreases s
  {
    if s == [] then st else Run(Step(st, s[0]), s[1..])
  }

  function Finish(st: State): Result<seq<string>> {
    match st.mode
    case Single => Failure("No closing quotation")
    case Double => Failure("No closing quotation")
    case Escape(_) => Failure("No escaped character")
    case Start => Success(st.out)
    case Word => Success(Emit(st).out)
  }

  /** `shlex.split(s, posix=True)` */
  function Split(s: string): Result<seq<string>> {
    Finish(Run(Initial, s))
  }

  // ----------------------------------------------------------------- lemmas

  lemma {:induction false} RunConcat(st: State, a: string, b: string)
    ensures Run(st, a + b) == Run(Run(st, a), b)
    decreases a
  {
    if a == [] {
      assert a + b == b;
    } else {
      assert (a + b)[1..] == a[1..] + b;
      RunConcat(Step(st, a[0]), a[1..], b);
    }
  }

  lemma {:induction false} RunSafe(st: State, s: string)
    requires st.mode == Word && AllSafe(s)
    ensures Run(st, s) == st.(token := st.token + s)
    decreases s
  {
    if s != [] {
      assert IsSafe(s[0]);
      RunSafe(Step(st, s[0]), s[1..]);
      assert st.token + [s[0]] + s[1..] == st.token + s;
    } else {
      assert st.token + s == st.token;
    }
  }

  lemma RunFirst(st: State, c: char, rest: string)
    ensures Run(st, [c] + rest) == Run(Step(st, c), rest)
  {
    assert ([c] + rest)[1..] == rest;
  }

  /** Close, quote one apostrophe in double quotes, open again. */
  lemma RunApostrophe(st: State, rest: string)
    requires st.mode == Single && st.quoted
    ensures Run(st, "'\"'\"'" + rest) == Run(st.(token := st.token + ['\'']), rest)
  {
    var next := st.(token := st.token + ['\'']);
    assert "'\"'\"'" + rest == ['\''] + (['"'] + (['\''] + (['"'] + (['\''] + rest))));
    RunFirst(st, '\'', ['"'] + (['\''] + (['"'] + (['\''] + rest))));
    RunFirst(st.(mode := Word), '"', ['\''] + (['"'] + (['\''] + rest)));
    RunFirst(st.(mode := Double), '\'', ['"'] + (['\''] + rest));
    RunFirst(next.(mode := Double), '"', ['\''] + rest);
    RunFirst(next.(mode := Word), '\'', rest);
  }

  /** Inside single quotes, the escaped form of `s` appends exactly `s` to the token. */
  lemma {:induction false} RunEscaped(st: State, s: string)
    requires st.mode == Single && st.quoted
    ensures Run(st, EscapeSingleQuotes(s)) == st.(token := st.token + s)
    decreases s
  {
    if s == [] {
      assert st.token + s == st.token;
    } else {
      var next := st.(token := st.token + [s[0]]);
      if s[0] == '\'' {
        RunApostrophe(st, EscapeSingleQuotes(s[1..]));
      } else {
        RunFirst(st, s[0], EscapeSingleQuotes(s[1..]));
      }
      RunEscaped(next, s[1..]);
      assert next.token + s[1..] == st.token + s;
    }
  }

  /** The state reached just inside the opening quote: `quoted` is set by the next character. */
  lemma RunOpenQuote(s: string)
    requires s != []
    ensures Run(Initial, "'" + EscapeSingleQuotes(s)) == State(Single, s, true, [])
  {
    var inQuote := Initial.(mode := Single);
    assert ("'" + EscapeSingleQuotes(s))[1..] == EscapeSingleQuotes(s);
    assert Run(Initial, "'" + EscapeSingleQuotes(s)) == Run(inQuote, EscapeSingleQuotes(s));
    RunEscaped(inQuote.(quoted := true), s);
    assert EscapeSingleQuotes(s) != [];
    assert [] + s == s;
    var e := EscapeSingleQuotes(s);
    assert Step(inQuote, e[0]) == Step(inQuote.(quoted := true), e[0]);
  }

  /** Splitting the quoted form of any string gives back exactly that one token. */
  lemma SplitQuote(s: string)
    ensures Split(Quote(s)) == Success([s])
  {
    assert [] + [s] == [s];
    if s == [] {
      var inside := Initial.(mode := Single);
      assert "''" == ['\''] + (['\''] + []);
      RunFirst(Initial, '\'', ['\''] + []);
      RunFirst(inside, '\'', []);
    } else if AllSafe(s) {
      assert IsSafe(s[0]);
      RunSafe(State(Word, [s[0]], false, []), s[1..]);
      assert [s[0]] + s[1..] == s;
    } else {
      var prefix := "'" + EscapeSingleQuotes(s);
      RunOpenQuote(s);
      RunConcat(Initial, prefix, "'");
      var inside := State(Single, s, true, []);
      assert Run(inside, "'") == inside.(mode := Word);
    }
  }

  /** No character a quoted string starts or ends with is white space, `[`, `{` or a line break,
      so the parser neither strips it nor takes it for raw JSON. */
  lemma QuoteShape(s: string)
    ensures Quote(s) != [] && Trimmed(Quote(s))
    ensures Quote(s)[0] != '[' && Quote(s)[0] != '{'
    ensures OneLine(s) ==> OneLine(Quote(s))
  {
    if s != [] && AllSafe(s) {
      assert IsSafe(s[0]) && IsSafe(s[|s| - 1]);
    }
    if OneLine(s) {
      EscapeKeepsOneLine(s);
    }
  }

  lemma {:induction false} EscapeKeepsOneLine(s: string)
    requires OneLine(s)
    ensures OneLine(EscapeSingleQuotes(s))
  {
    if s != [] {
      EscapeKeepsOneLine(s[1..]);
    }
  }

  /** A quotation that never closes is an error. */
  lemma OpenQuoteFails(s: string)
    ensures Split("'" + EscapeSingleQuotes(s)).Failure?
  {
    if s == [] {
      assert "'" + EscapeSingleQuotes(s) == "'";
      assert Run(Initial, "'") == Initial.(mode := Single);
    } else {
      RunOpenQuote(s);
    }
  }

  lemma {:induction false} EscapeConcat(a: string, b: string)
    ensures EscapeSingleQuotes(a + b) == EscapeSingleQuotes(a) + EscapeSingleQuotes(b)
  {
    if a == [] {
      assert a + b == b;
    } else {
      assert (a + b)[1..] == a[1..] + b;
      EscapeConcat(a[1..], b);
    }
  }

  ghost predicate StateOneLine(st: State) {
    OneLine(st.token) && AllOneLine(st.out)
  }

  lemma {:induction false} RunKeepsOneLine(st: State, s: string)
    requires StateOneLine(st) && OneLine(s)
    ensures StateOneLine(Run(st, s))
    decreases s
  {
    if s != [] {
      assert !IsLineBreak(s[0]);
      RunKeepsOneLine(Step(st, s[0]), s[1..]);
    }
  }

  /** Tokens are made of characters of the input: no token of a line holds a line break. */
  lemma SplitKeepsOneLine(s: string)
    requires OneLine(s)
    ensures Split(s).Success? ==> AllOneLine(Split(s).value)
  {
    RunKeepsOneLine(Initial, s);
  }
}
