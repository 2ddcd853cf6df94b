/** The environment file the preflight check writes for the generator
    (`preflight_runtime_env_contract.py`). */
module Preflight {
  import opened EnvFile
  import EnvPrinting
  import opened RuntimeEnv
  import opened Text

  /** What `_render_env_payload` returns. */
  function PayloadText(values: map<string, string>): string {
    JoinLines(Appended(SortedKeys(values.Keys), values)) + "\n"
  }

  method RenderEnvPayload(values: map<string, string>) returns (text: string)
    ensures text == PayloadText(values)
  {
    var keys := SortedKeys(values.Keys);
    var lines := AppendEntries([], keys, values);
    assert [] + Appended(keys, values) == Appended(keys, values);
    text := JoinLines(lines) + "\n";
  }

  lemma {:induction false} JoinedIsUnlines(lines: seq<string>)
    requires lines != []
    ensures JoinLines(lines) + "\n" == Unlines(lines)
  {
    if |lines| > 1 {
      JoinedIsUnlines(lines[1..]);
    } else {
      assert lines[1..] == [];
    }
  }

  /** The payload is one line for each key, in the order of the keys. */
  lemma PayloadPrinted(values: map<string, string>) returns (keys: seq<string>, lines: seq<string>)
    requires values != map[]
    ensures PayloadText(values) == Unlines(lines) && |lines| == |keys|
    ensures IsSorted(keys) && forall key :: key in keys <==> key in values
    ensures forall i | 0 <= i < |keys| :: lines[i] == keys[i] + "=" + EnvPrinting.Printed(values[keys[i]])
  {
    keys := SortedKeys(values.Keys);
    lines := Appended(keys, values);
    SortedKeysSorted(values.Keys);
    EnvPrinting.AddedPrinted(keys, values);
    var key :| key in values.Keys;
    assert key in keys;
    JoinedIsUnlines(lines);
  }

  lemma PayloadIsRendered(values: map<string, string>)
    requires values != map[]
    ensures PayloadText(values) == RenderText([], values)
  {
    var keys := SortedKeys(values.Keys);
    assert keys != [] by {
      var key :| key in values.Keys;
      assert key in keys;
    }
    assert values.Keys - Seen([], values) == values.Keys;
    JoinedIsUnlines(Appended(keys, values));
    assert RenderBody([], values) + Appended(keys, values) == Appended(keys, values);
  }

  /** The generator reads the payload back unchanged exactly when every key is one a line can have and
      no value holds a line break. */
  lemma PreflightReadsBack(values: map<string, string>)
    ensures ParseText(PayloadText(values)) == Success(values) <==> Carries(values)
  {
    if values == map[] {
      NoLines();
    } else {
      PayloadIsRendered(values);
      assert TemplateMap([]) + values == values;
      ParseUndoesRender([], values);
    }
  }

  /** The generator the preflight check runs on the payload keeps a supplied value under the same exact
      conditions under which it keeps any existing value. */
  lemma PreflightKeeps(lib: Library, template: string, environment: string, values: map<string, string>,
                       generated: Secrets)
    requires Lawful(lib) && GeneratedOk(generated) && Carries(values)
    requires Generate(lib, template, environment, Some(PayloadText(values)), NoArgs, generated).Success?
    ensures var text := Generate(lib, template, environment, Some(PayloadText(values)), NoArgs, generated).value;
            && ParseText(text).Success?
            && KeepsExactly(lib, Lower(Strip(environment)), TemplateMap(SplitLines(template)), values,
                            ParseText(text).value)
  {
    PreflightReadsBack(values);
    ExistingValuesPreserved(lib, template, environment, PayloadText(values), generated);
  }

  lemma NoLines()
    ensures SortedKeys({}) == [] && ParseText("\n") == Success(map[])
  {
    assert SplitLines("\n") == [""] by {
      SplitFirstLine("", "");
      assert "" + "\n" + "" == "\n";
    }
  }
}
