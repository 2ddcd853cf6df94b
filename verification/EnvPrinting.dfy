/** What `render_env` prints, line by line: which lines of the template stay as they are, what becomes of
    the others, and which lines are added. */
module EnvPrinting {
  import opened Text
  import opened EnvFile
  import Shlex

  // ------------------------------------------------------------------ values

  /** The characters that need no quotes. */
  predicate IsPlain(c: char) {
    || '0' <= c <= '9' || 'A' <= c <= 'Z' || 'a' <= c <= 'z' || c in ['_', '@', '%', '+', '=', ':', ',', '.', '/', '-']
  }

  /** A text inside single quotes; for an apostrophe the quotes are left for one in double quotes. */
  function Spelled(value: string): string {
    var n := IndexOf(value, '\'');
    if n == |value| then value else value[..n] + ("'\"'\"'" + Spelled(value[n + 1..]))
  }

  /** How a value is printed: plainly, or in single quotes. */
  function Printed(value: string): string {
    if forall i | 0 <= i < |value| :: IsPlain(value[i]) then value else "'" + Spelled(value) + "'"
  }

  lemma {:induction false} WithoutApostrophe(value: string)
    requires '\'' !in value
    ensures Shlex.EscapeSingleQuotes(value) == value
  {
    if value != "" {
      WithoutApostrophe(value[1..]);
    }
  }

  lemma {:induction false} EscapeJoins(a: string, b: string)
    ensures Shlex.EscapeSingleQuotes(a + b) == Shlex.EscapeSingleQuotes(a) + Shlex.EscapeSingleQuotes(b)
  {
    if a == "" {
      assert a + b == b;
    } else {
      assert (a + b)[1..] == a[1..] + b;
      EscapeJoins(a[1..], b);
    }
  }

  lemma {:induction false} SpellingIsEscape(value: string)
    ensures Shlex.EscapeSingleQuotes(value) == Spelled(value)
    decreases value
  {
    var n := IndexOf(value, '\'');
    if n == |value| {
      WithoutApostrophe(value);
    } else {
      var front, back := value[..n], value[n + 1..];
      assert value == front + (['\''] + back);
      EscapeJoins(front, ['\''] + back);
      WithoutApostrophe(front);
      SpellingIsEscape(back);
      assert (['\''] + back)[1..] == back;
    }
  }

  lemma ValuePrinted(value: string)
    ensures RenderValue(value) == Printed(value)
  {
    assert Shlex.AllSafe(value) <==> forall i | 0 <= i < |value| :: IsPlain(value[i]);
    if !Shlex.AllSafe(value) {
      SpellingIsEscape(value);
    }
  }

  // ------------------------------------------------------------------- lines

  /** A line that assigns nothing: blank, a comment, or without an equals sign. */
  predicate IsKept(line: string) {
    '=' !in line || Strip(line) == "" || Strip(line)[0] == '#'
  }

  /** A line that assigns the value to the key. */
  ghost predicate Assigns(line: string, key: string, value: string) {
    && !IsKept(line)
    && exists head: string :: line == head + ("=" + value) && '=' !in head && Strip(head) == key
  }

  ghost predicate PrintsAs(line: string, overrides: map<string, string>, printed: string) {
    if IsKept(line) then printed == line
    else exists key: string, value: string ::
      && Assigns(line, key, value)
      && printed == key + "=" + Printed(if key in overrides then overrides[key] else value)
  }

  lemma KeptIff(line: string)
    ensures RenderCopies(line) <==> IsKept(line)
  {
    StripMember(line, '=');
  }

  lemma AssignsIff(line: string, key: string, value: string)
    requires !IsKept(line)
    ensures Assigns(line, key, value) <==> key == KeyOf(line) && value == ValueOf(line)
  {
    SplitAtEquals(line);
    var own := line[..IndexOf(line, '=')];
    assert line == own + ("=" + ValueOf(line));
    forall head: string | line == head + ("=" + value) && '=' !in head
      ensures head == own && value == ValueOf(line)
    {
      FirstEquals(line, head, value);
    }
    if key == KeyOf(line) && value == ValueOf(line) {
      assert Strip(own) == key;
    }
  }

  lemma FirstEquals(line: string, head: string, value: string)
    requires line == head + ("=" + value) && '=' !in head
    ensures '=' in line && IndexOf(line, '=') == |head| && line[..|head|] == head && ValueOf(line) == value
  {
    assert line[|head|] == '=';
    assert forall i | 0 <= i < |head| :: line[i] == head[i];
  }

  lemma LinePrinted(line: string, overrides: map<string, string>)
    ensures PrintsAs(line, overrides, RenderLine(line, overrides))
  {
    KeptIff(line);
    if !IsKept(line) {
      var key, value := KeyOf(line), ValueOf(line);
      AssignsIff(line, key, value);
      ValuePrinted(if key in overrides then overrides[key] else value);
      assert Assigns(line, key, value);
    }
  }

  lemma {:induction false} BodyPrinted(template: seq<string>, overrides: map<string, string>)
    ensures var lines := RenderBody(template, overrides);
            && |lines| == |template|
            && forall i | 0 <= i < |template| :: PrintsAs(RStripNewlines(template[i]), overrides, lines[i])
  {
    if template != [] {
      LinePrinted(RStripNewlines(template[0]), overrides);
      BodyPrinted(template[1..], overrides);
    }
  }

  /** A line of the template assigns the key. */
  ghost predicate Mentioned(template: seq<string>, key: string) {
    exists i, value | 0 <= i < |template| :: Assigns(RStripNewlines(template[i]), key, value)
  }

  lemma {:induction false} SeenIff(template: seq<string>, overrides: map<string, string>, key: string)
    ensures key in Seen(template, overrides) <==> key in overrides && Mentioned(template, key)
  {
    if template != [] {
      var line := RStripNewlines(template[0]);
      SeenIff(template[1..], overrides, key);
      KeptIff(line);
      if !IsKept(line) {
        AssignsIff(line, key, ValueOf(line));
      }
      MentionedCons(template, key);
    }
  }

  lemma MentionedCons(template: seq<string>, key: string)
    requires template != []
    ensures Mentioned(template, key) <==>
            Mentioned(template[1..], key)
            || (!IsKept(RStripNewlines(template[0])) && KeyOf(RStripNewlines(template[0])) == key)
  {
    var line := RStripNewlines(template[0]);
    KeptIff(line);
    if Mentioned(template, key) {
      var i, value :| 0 <= i < |template| && Assigns(RStripNewlines(template[i]), key, value);
      if i == 0 {
        AssignsIff(line, key, value);
      } else {
        assert template[1..][i - 1] == template[i];
      }
    }
    if Mentioned(template[1..], key) {
      var i, value :| 0 <= i < |template| - 1 && Assigns(RStripNewlines(template[1..][i]), key, value);
      assert template[i + 1] == template[1..][i];
    }
    if !IsKept(line) && KeyOf(line) == key {
      AssignsIff(line, key, ValueOf(line));
      assert Assigns(RStripNewlines(template[0]), key, ValueOf(line));
    }
  }

  lemma {:induction false} AddedPrinted(keys: seq<string>, overrides: map<string, string>)
    requires forall k | k in keys :: k in overrides
    ensures var lines := Appended(keys, overrides);
            && |lines| == |keys|
            && forall i | 0 <= i < |keys| :: lines[i] == keys[i] + "=" + Printed(overrides[keys[i]])
  {
    if keys != [] {
      ValuePrinted(overrides[keys[0]]);
      AddedPrinted(keys[1..], overrides);
    }
  }

  /** The printed lines: one for each line of the template, then one for each override that no line of the
      template assigns, in the order of the keys. */
  lemma TextPrinted(template: seq<string>, overrides: map<string, string>)
    returns (body: seq<string>, keys: seq<string>, added: seq<string>)
    ensures RenderText(template, overrides) == Unlines(body + added)
    ensures |body| == |template| && |added| == |keys| && IsSorted(keys)
    ensures forall i | 0 <= i < |body| :: PrintsAs(RStripNewlines(template[i]), overrides, body[i])
    ensures forall key :: key in keys <==> key in overrides && !Mentioned(template, key)
    ensures forall i | 0 <= i < |keys| :: added[i] == keys[i] + "=" + Printed(overrides[keys[i]])
  {
    var names := overrides.Keys - Seen(template, overrides);
    keys := SortedKeys(names);
    body, added := RenderBody(template, overrides), Appended(keys, overrides);
    BodyPrinted(template, overrides);
    AddedPrinted(keys, overrides);
    SortedKeysSorted(names);
    forall key ensures key in keys <==> key in overrides && !Mentioned(template, key) {
      SeenIff(template, overrides, key);
    }
  }

  /** The last line that assigns the key gives it this value. */
  ghost predicate LastAssigned(template: seq<string>, key: string, value: string) {
    exists i | 0 <= i < |template| ::
      Assigns(RStripNewlines(template[i]), key, value) && !Mentioned(template[i + 1..], key)
  }

  lemma LastCons(template: seq<string>, key: string, value: string)
    requires template != []
    requires LastAssigned(template[1..], key, value)
             || (Assigns(RStripNewlines(template[0]), key, value) && !Mentioned(template[1..], key))
    ensures LastAssigned(template, key, value)
  {
    if LastAssigned(template[1..], key, value) {
      var i :| 0 <= i < |template| - 1 && Assigns(RStripNewlines(template[1..][i]), key, value)
               && !Mentioned(template[1..][i + 1..], key);
      assert template[1..][i] == template[i + 1] && template[1..][i + 1..] == template[i + 2..];
    } else {
      assert Assigns(RStripNewlines(template[0]), key, value) && !Mentioned(template[0 + 1..], key);
    }
  }

  /** What the template says by itself: of every key the value in the last line that assigns it. */
  lemma {:induction false} TemplateSays(template: seq<string>, key: string)
    ensures key in TemplateMap(template) <==> Mentioned(template, key)
    ensures key in TemplateMap(template) ==> LastAssigned(template, key, TemplateMap(template)[key])
  {
    if template != [] {
      var line := RStripNewlines(template[0]);
      TemplateSays(template[1..], key);
      MentionedCons(template, key);
      KeptIff(line);
      CopiesIffSkips(line);
      if key in TemplateMap(template[1..]) {
        LastCons(template, key, TemplateMap(template[1..])[key]);
      } else if !IsKept(line) && KeyOf(line) == key {
        AssignsIff(line, key, ValueOf(line));
        LastCons(template, key, ValueOf(line));
      }
    }
  }
}
