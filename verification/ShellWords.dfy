/** The texts `shlex.split` accepts, as a grammar: words of bare, escaped, single-quoted and
    double-quoted pieces (IEEE Std 1003.1, Shell Command Language, section 2.2), between blanks. */
module ShellWords {
  import opened Shlex
  import opened Text

  /** A character between double quotes: itself, or after a backslash. */
  datatype Inner = Plain(c: char) | Slashed(c: char)

  datatype Piece = Bare(c: char) | Escaped(c: char) | Quoted(s: string) | DoubleQuoted(inner: seq<Inner>)

  type Word = seq<Piece>

  predicate InnerOk(i: Inner) {
    i.Plain? ==> i.c != '"' && i.c != '\\'
  }

  predicate PieceOk(p: Piece) {
    match p
    case Bare(c) => !IsBlank(c) && c != '\\' && c != '\'' && c != '"'
    case Escaped(_) => true
    case Quoted(s) => '\'' !in s
    case DoubleQuoted(inner) => forall i | 0 <= i < |inner| :: InnerOk(inner[i])
  }

  predicate PiecesOk(word: Word) {
    forall i | 0 <= i < |word| :: PieceOk(word[i])
  }

  predicate WordOk(word: Word) {
    word != [] && PiecesOk(word)
  }

  predicate AllBlank(s: string) {
    forall i | 0 <= i < |s| :: IsBlank(s[i])
  }

  // ---------------------------------------------------------- text and meaning

  function OneText(i: Inner): string {
    if i.Plain? then [i.c] else ['\\', i.c]
  }

  /** Between double quotes a backslash only escapes a backslash and a double quote. */
  function OneMeaning(i: Inner): string {
    if i.Plain? || i.c == '"' || i.c == '\\' then [i.c] else ['\\', i.c]
  }

  function InnerText(inner: seq<Inner>): string {
    if inner == [] then "" else OneText(inner[0]) + InnerText(inner[1..])
  }

  function InnerMeaning(inner: seq<Inner>): string {
    if inner == [] then "" else OneMeaning(inner[0]) + InnerMeaning(inner[1..])
  }

  function PieceText(p: Piece): string {
    match p
    case Bare(c) => [c]
    case Escaped(c) => ['\\', c]
    case Quoted(s) => "'" + s + "'"
    case DoubleQuoted(inner) => "\"" + InnerText(inner) + "\""
  }

  function PieceMeaning(p: Piece): string {
    match p
    case Bare(c) => [c]
    case Escaped(c) => [c]
    case Quoted(s) => s
    case DoubleQuoted(inner) => InnerMeaning(inner)
  }

  function WordText(word: Word): string {
    if word == [] then "" else PieceText(word[0]) + WordText(word[1..])
  }

  function Meaning(word: Word): string {
    if word == [] then "" else PieceMeaning(word[0]) + Meaning(word[1..])
  }

  // ------------------------------------------------------------------- lexing

  /** Where a piece can begin: between words, or in one. */
  predicate Open(st: State) {
    st.mode == Shlex.Word || (st.mode == Start && st.token == [] && !st.quoted)
  }

  lemma RunTwo(st: State, c: char, d: char)
    ensures Run(st, [c, d]) == Step(Step(st, c), d)
  {
    assert [c, d] == [c] + [d];
    RunFirst(st, c, [d]);
    RunOne(Step(st, c), d);
  }

  lemma RunOne(st: State, c: char)
    ensures Run(st, [c]) == Step(st, c)
  {
    assert [c][1..] == [];
  }

  lemma {:induction false} RunQuoted(st: State, s: string)
    requires st.mode == Single && '\'' !in s
    ensures Run(st, s) == st.(token := st.token + s, quoted := st.quoted || s != "")
    decreases s
  {
    if s == "" {
      assert st.token + s == st.token;
    } else {
      RunQuoted(Step(st, s[0]), s[1..]);
      assert st.token + [s[0]] + s[1..] == st.token + s;
    }
  }

  lemma RunInnerOne(st: State, i: Inner, rest: string)
    requires st.mode == Double && InnerOk(i)
    ensures Run(st, OneText(i) + rest) == Run(st.(token := st.token + OneMeaning(i), quoted := true), rest)
  {
    if i.Plain? {
      RunFirst(st, i.c, rest);
    } else {
      assert OneText(i) + rest == ['\\'] + ([i.c] + rest);
      RunFirst(st, '\\', [i.c] + rest);
      RunFirst(Step(st, '\\'), i.c, rest);
    }
  }

  function WithInner(st: State, inner: seq<Inner>): State {
    st.(token := st.token + InnerMeaning(inner), quoted := st.quoted || inner != [])
  }

  lemma WithMore(st: State, i: Inner, more: seq<Inner>)
    ensures WithInner(st.(token := st.token + OneMeaning(i), quoted := true), more) == WithInner(st, [i] + more)
  {
    assert ([i] + more)[1..] == more;
    assert st.token + OneMeaning(i) + InnerMeaning(more) == st.token + (OneMeaning(i) + InnerMeaning(more));
  }

  lemma {:induction false} RunInner(st: State, inner: seq<Inner>)
    requires st.mode == Double && forall i | 0 <= i < |inner| :: InnerOk(inner[i])
    ensures Run(st, InnerText(inner)) == WithInner(st, inner)
    decreases inner
  {
    if inner == [] {
      assert st.token + InnerMeaning(inner) == st.token;
    } else {
      RunInnerOne(st, inner[0], InnerText(inner[1..]));
      RunInner(st.(token := st.token + OneMeaning(inner[0]), quoted := true), inner[1..]);
      WithMore(st, inner[0], inner[1..]);
      assert inner == [inner[0]] + inner[1..];
    }
  }

  predicate Quotes(p: Piece) {
    p.Quoted? || p.DoubleQuoted?
  }

  /** A piece adds its meaning to the token. */
  lemma RunPiece(st: State, p: Piece)
    requires Open(st) && PieceOk(p)
    ensures Run(st, PieceText(p)) ==
            State(Shlex.Word, st.token + PieceMeaning(p), st.quoted || Quotes(p), st.out)
  {
    match p {
      case Bare(c) =>
        RunOne(st, c);
      case Escaped(c) =>
        RunTwo(st, '\\', c);
      case Quoted(s) =>
        RunFirst(st, '\'', s + "'");
        assert ['\''] + (s + "'") == PieceText(p);
        RunConcat(Step(st, '\''), s, "'");
        RunQuoted(Step(st, '\''), s);
        RunOne(Run(Step(st, '\''), s), '\'');
      case DoubleQuoted(inner) =>
        RunFirst(st, '"', InnerText(inner) + "\"");
        assert ['"'] + (InnerText(inner) + "\"") == PieceText(p);
        RunConcat(Step(st, '"'), InnerText(inner), "\"");
        RunInner(Step(st, '"'), inner);
        RunOne(Run(Step(st, '"'), InnerText(inner)), '"');
    }
  }

  predicate Visible(st: State) {
    st.mode == Shlex.Word && (st.token != [] || st.quoted)
  }

  lemma PieceVisible(p: Piece)
    ensures PieceMeaning(p) != "" || Quotes(p)
  {
  }

  /** After a word the token holds its meaning too. */
  predicate ReadsWord(st: State, word: Word, end: State) {
    && end.out == st.out && end.token == st.token + Meaning(word)
    && (word != [] || Visible(st) ==> Visible(end)) && (word == [] ==> end == st)
  }

  lemma ReadsMore(st: State, p: Piece, more: Word, next: State, end: State)
    requires next == State(Shlex.Word, st.token + PieceMeaning(p), st.quoted || Quotes(p), st.out)
    requires ReadsWord(next, more, end)
    ensures ReadsWord(st, [p] + more, end)
  {
    PieceVisible(p);
    assert ([p] + more)[1..] == more;
    assert st.token + PieceMeaning(p) + Meaning(more) == st.token + (PieceMeaning(p) + Meaning(more));
  }

  lemma {:induction false} RunWord(st: State, word: Word)
    requires Open(st) && PiecesOk(word)
    ensures ReadsWord(st, word, Run(st, WordText(word)))
    decreases word
  {
    if word == [] {
      assert st.token + Meaning(word) == st.token;
    } else {
      assert PieceOk(word[0]);
      RunPiece(st, word[0]);
      RunConcat(st, PieceText(word[0]), WordText(word[1..]));
      var next := Run(st, PieceText(word[0]));
      RunWord(next, word[1..]);
      ReadsMore(st, word[0], word[1..], next, Run(next, WordText(word[1..])));
      assert word == [word[0]] + word[1..];
    }
  }

  function Before(out: seq<string>, st: State): State {
    st.(out := out + st.out)
  }

  lemma StepBefore(out: seq<string>, st: State, c: char)
    ensures Step(Before(out, st), c) == Before(out, Step(st, c))
  {
    assert out + (st.out + [st.token]) == out + st.out + [st.token];
  }

  /** Tokens that are already out do not matter. */
  lemma {:induction false} RunBefore(out: seq<string>, st: State, s: string)
    ensures Run(Before(out, st), s) == Before(out, Run(st, s))
    decreases s
  {
    if s != "" {
      StepBefore(out, st, s[0]);
      RunBefore(out, Step(st, s[0]), s[1..]);
    }
  }

  lemma FinishBefore(out: seq<string>, st: State)
    ensures Finish(Before(out, st)) ==
            if Finish(st).Success? then Success(out + Finish(st).value) else Finish(st)
  {
    assert out + (st.out + [st.token]) == out + st.out + [st.token];
  }

  /** Blanks in front do not matter. */
  lemma SplitBlank(c: char, rest: string)
    requires IsBlank(c)
    ensures Split([c] + rest) == Split(rest)
  {
    RunFirst(Initial, c, rest);
  }

  lemma {:induction false} SplitBlanks(blanks: string, rest: string)
    requires AllBlank(blanks)
    ensures Split(blanks + rest) == Split(rest)
  {
    if blanks == "" {
      assert blanks + rest == rest;
    } else {
      assert blanks + rest == [blanks[0]] + (blanks[1..] + rest);
      SplitBlank(blanks[0], blanks[1..] + rest);
      SplitBlanks(blanks[1..], rest);
    }
  }

  /** A word that ends the text, or is followed by a blank, is a token of its own. */
  lemma SplitWord(word: Word, rest: string)
    requires WordOk(word) && (rest == "" || IsBlank(rest[0]))
    ensures Split(WordText(word) + rest) ==
            if Split(rest).Success? then Success([Meaning(word)] + Split(rest).value) else Split(rest)
  {
    var end := Run(Initial, WordText(word));
    RunWord(Initial, word);
    assert [] + Meaning(word) == Meaning(word);
    RunConcat(Initial, WordText(word), rest);
    if rest == "" {
      assert WordText(word) + rest == WordText(word);
      assert [] + [Meaning(word)] == [Meaning(word)] + [];
    } else {
      var out := [Meaning(word)];
      assert Step(end, rest[0]) == Before(out, Initial) && Step(Initial, rest[0]) == Initial;
      RunBefore(out, Initial, rest[1..]);
      FinishBefore(out, Run(Initial, rest[1..]));
    }
  }

  // -------------------------------------------------------------------- texts

  /** A word with the blanks in front of it. */
  datatype Item = Item(blanks: string, word: Word)

  function ItemsText(items: seq<Item>, last: string): string {
    if items == [] then last else items[0].blanks + WordText(items[0].word) + ItemsText(items[1..], last)
  }

  function Meanings(items: seq<Item>): seq<string> {
    if items == [] then [] else [Meaning(items[0].word)] + Meanings(items[1..])
  }

  /** Words are set apart by blanks; there may be some in front and behind. */
  predicate ItemsOk(items: seq<Item>, last: string) {
    && AllBlank(last)
    && forall i | 0 <= i < |items| ::
         AllBlank(items[i].blanks) && WordOk(items[i].word) && (i > 0 ==> items[i].blanks != "")
  }

  /** Every text that the grammar spells is split into the meanings of its words. */
  lemma {:induction false} SplitItems(items: seq<Item>, last: string)
    requires ItemsOk(items, last)
    ensures Split(ItemsText(items, last)) == Success(Meanings(items))
  {
    if items == [] {
      SplitBlanks(last, "");
      assert last + "" == last;
    } else {
      var rest := ItemsText(items[1..], last);
      assert forall i | 0 <= i < |items| - 1 :: items[1..][i] == items[i + 1];
      SplitItems(items[1..], last);
      RestStarts(items[1..], last);
      SplitWord(items[0].word, rest);
      SplitBlanks(items[0].blanks, WordText(items[0].word) + rest);
      assert ItemsText(items, last) == items[0].blanks + (WordText(items[0].word) + rest);
    }
  }

  lemma RestStarts(items: seq<Item>, last: string)
    requires AllBlank(last)
    requires items != [] ==> items[0].blanks != "" && AllBlank(items[0].blanks)
    ensures var rest := ItemsText(items, last); rest == "" || IsBlank(rest[0])
  {
  }

  // ----------------------------------------------------------- and nothing else

  ghost predicate Accepts(st: State, s: string) {
    Finish(Run(st, s)).Success?
  }

  lemma AcceptsNext(st: State, s: string)
    requires Accepts(st, s) && (s != "" || !(st.mode == Start || st.mode == Shlex.Word))
    ensures s != "" && Accepts(Step(st, s[0]), s[1..])
  {
  }

  /** An open single quotation closes. */
  lemma {:induction false} QuotedCloses(st: State, s: string) returns (n: nat)
    requires st.mode == Single && Accepts(st, s)
    ensures n < |s| && s[n] == '\'' && '\'' !in s[..n]
    decreases s
  {
    n := 0;
    AcceptsNext(st, s);
    if s[0] != '\'' {
      var m := QuotedCloses(Step(st, s[0]), s[1..]);
      n := m + 1;
      assert s[..n] == [s[0]] + s[1..][..m];
    }
  }

  /** An open double quotation closes. */
  lemma {:induction false} DoubleCloses(st: State, s: string) returns (inner: seq<Inner>)
    requires st.mode == Double && Accepts(st, s)
    ensures forall i | 0 <= i < |inner| :: InnerOk(inner[i])
    ensures |InnerText(inner)| < |s| && s[..|InnerText(inner)|] == InnerText(inner) && s[|InnerText(inner)|] == '"'
    decreases s
  {
    inner := [];
    AcceptsNext(st, s);
    if s[0] == '\\' {
      AcceptsNext(Step(st, s[0]), s[1..]);
      assert s[1..][1..] == s[2..];
      var rest := DoubleCloses(Step(Step(st, s[0]), s[1]), s[2..]);
      inner := [Slashed(s[1])] + rest;
      assert inner[1..] == rest;
      PrefixShift(s, [s[0], s[1]], InnerText(rest));
    } else if s[0] != '"' {
      var rest := DoubleCloses(Step(st, s[0]), s[1..]);
      inner := [Plain(s[0])] + rest;
      assert inner[1..] == rest;
      PrefixShift(s, [s[0]], InnerText(rest));
    }
  }

  lemma PrefixShift(s: string, head: string, text: string)
    requires head <= s && |head| + |text| <= |s| && s[|head|..][..|text|] == text
    ensures s[..|head + text|] == head + text
    ensures |head + text| < |s| ==> s[|head|..][|text|] == s[|head + text|]
  {
    assert s[..|head|] == head;
    assert s[..|head + text|] == s[..|head|] + s[|head|..][..|text|];
  }

  /** A text that is accepted where a piece can begin goes on with a blank or begins with a piece. */
  lemma SpelledPiece(st: State, s: string) returns (p: Piece)
    requires Open(st) && Accepts(st, s) && s != "" && !IsBlank(s[0])
    ensures PieceOk(p) && PieceText(p) <= s && PieceText(p) != ""
  {
    AcceptsNext(st, s);
    if s[0] == '\\' {
      AcceptsNext(Step(st, s[0]), s[1..]);
      p := Escaped(s[1]);
    } else if s[0] == '\'' {
      var n := QuotedCloses(Step(st, s[0]), s[1..]);
      p := Quoted(s[1..][..n]);
      assert PieceText(p) == [s[0]] + (s[1..][..n] + "'");
      PrefixShift(s, [s[0]], s[1..][..n] + "'");
    } else if s[0] == '"' {
      var inner := DoubleCloses(Step(st, s[0]), s[1..]);
      p := DoubleQuoted(inner);
      assert PieceText(p) == [s[0]] + (InnerText(inner) + "\"");
      PrefixShift(s, [s[0]], InnerText(inner) + "\"");
    } else {
      p := Bare(s[0]);
    }
  }

  lemma AfterPiece(st: State, p: Piece, rest: string)
    requires Open(st) && PieceOk(p) && Accepts(st, PieceText(p) + rest)
    ensures Open(Run(st, PieceText(p))) && Accepts(Run(st, PieceText(p)), rest)
  {
    RunPiece(st, p);
    RunConcat(st, PieceText(p), rest);
  }

  /** As many pieces as there are before the next blank. */
  lemma {:induction false} FirstPieces(st: State, s: string) returns (word: Word, rest: string)
    requires Open(st) && Accepts(st, s)
    ensures PiecesOk(word) && s == WordText(word) + rest && (rest == "" || IsBlank(rest[0]))
    ensures s != "" && !IsBlank(s[0]) ==> word != []
    decreases |s|
  {
    if s == "" || IsBlank(s[0]) {
      word, rest := [], s;
      assert WordText(word) + rest == s;
    } else {
      var p := SpelledPiece(st, s);
      var after := s[|PieceText(p)|..];
      assert s == PieceText(p) + after;
      AfterPiece(st, p, after);
      var more;
      more, rest := FirstPieces(Run(st, PieceText(p)), after);
      word := [p] + more;
      WordCons(p, more, rest);
    }
  }

  lemma WordCons(p: Piece, more: Word, rest: string)
    ensures WordText([p] + more) + rest == PieceText(p) + (WordText(more) + rest)
  {
    assert ([p] + more)[1..] == more;
  }

  lemma {:induction false} LeadingBlanks(s: string) returns (n: nat)
    ensures n <= |s| && AllBlank(s[..n]) && (n < |s| ==> !IsBlank(s[n]))
  {
    n := 0;
    if s != "" && IsBlank(s[0]) {
      var m := LeadingBlanks(s[1..]);
      n := m + 1;
      assert s[..n] == [s[0]] + s[1..][..m];
    }
  }

  /** Every text that is split is one that the grammar spells. */
  lemma {:induction false} SplitSpelled(s: string) returns (items: seq<Item>, last: string)
    requires Split(s).Success?
    ensures ItemsOk(items, last) && s == ItemsText(items, last)
    ensures items != [] && s != "" && IsBlank(s[0]) ==> items[0].blanks != ""
    decreases |s|
  {
    var n := LeadingBlanks(s);
    var t := s[n..];
    assert s == s[..n] + t;
    SplitBlanks(s[..n], t);
    if t == "" {
      items, last := [], s;
    } else {
      var word, rest := FirstPieces(Initial, t);
      SplitWord(word, rest);
      WordNotEmpty(word);
      var more;
      more, last := SplitSpelled(rest);
      items := [Item(s[..n], word)] + more;
      ItemsCons(Item(s[..n], word), more, last);
    }
  }

  lemma WordNotEmpty(word: Word)
    requires WordOk(word)
    ensures WordText(word) != ""
  {
    assert PieceText(word[0]) != "";
  }

  lemma ItemsCons(item: Item, more: seq<Item>, last: string)
    requires ItemsOk(more, last) && AllBlank(item.blanks) && WordOk(item.word)
    requires more != [] ==> more[0].blanks != ""
    ensures ItemsOk([item] + more, last)
    ensures ItemsText([item] + more, last) == item.blanks + (WordText(item.word) + ItemsText(more, last))
  {
    var items := [item] + more;
    assert items[1..] == more;
    assert forall i | 0 < i < |items| :: items[i] == more[i - 1];
  }
}
