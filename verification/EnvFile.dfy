/** internal/agent/bootstrap.go: the env file of KEY=value lines, one variable written by
    persistEnvVar, all of them loaded by LoadEnvFile. */
module EnvFile {
  import opened Wrappers
  import opened Strings

  /** The name a line assigns to, if the writer sees one. */
  function KeyOf(line: string): Option<string> {
    var eq := IndexOf(line, '=');
    if eq > 0 then Some(line[..eq]) else None
  }

  /** The old lines persistEnvVar keeps, trimmed. */
  function OtherLines(lines: seq<string>, name: string): seq<string> {
    if |lines| == 0 then []
    else
      var line := TrimSpace(lines[|lines|-1]);
      OtherLines(lines[..|lines|-1], name) + (if line == "" || KeyOf(line) == Some(name) then [] else [line])
  }

  function Written(text: Option<string>, name: string, value: string): string {
    Join((if text.Some? then OtherLines(Split(text.value), name) else []) + [name + "=" + value]) + "\n"
  }

  const NUL: char := '\0'

  /** One line of LoadEnvFile. A variable that is set and not empty stays. */
  function LoadLine(env: map<string, string>, raw: string): map<string, string> {
    var line := TrimSpace(raw);
    if line == "" || line[0] == '#' then env
    else
      var eq := IndexOf(line, '=');
      if eq <= 0 then env
      else if line[..eq] in env && env[line[..eq]] != "" then env
      else if NUL in line then env   // os.Setenv refuses it
      else env[line[..eq] := line[eq+1..]]
  }

  function LoadLines(env: map<string, string>, lines: seq<string>): map<string, string> {
    if |lines| == 0 then env else LoadLine(LoadLines(env, lines[..|lines|-1]), lines[|lines|-1])
  }

  function Loaded(env: map<string, string>, text: Option<string>): map<string, string> {
    if text.None? then env else LoadLines(env, Split(text.value))
  }

  class EnvFile {
    var text: Option<string>   // None: no file

    constructor ()
      ensures text == None
    {
      text := None;
    }

    /** Rewrites the file in one atomic step. */
    method PersistEnvVar(name: string, value: string)
      modifies this
      ensures text == Some(Written(old(text), name, value))
    {
      var lines: seq<string> := [];
      if text.Some? {
        var pieces := Split(text.value);
        for i := 0 to |pieces|
          invariant lines == OtherLines(pieces[..i], name)
        {
          assert pieces[..i+1][..i] == pieces[..i];
          var line := TrimSpace(pieces[i]);
          if line == "" {
            continue;
          }
          var eqIdx := IndexOf(line, '=');
          if eqIdx > 0 {
            if line[..eqIdx] == name {
              continue;
            }
          }
          lines := lines + [line];
        }
        assert pieces[..|pieces|] == pieces;
      }
      lines := lines + [name + "=" + value];
      text := Some(Join(lines) + "\n");
    }
  }

  class Environment {
    var vars: map<string, string>

    constructor (vars: map<string, string>)
      ensures this.vars == vars
    {
      this.vars := vars;
    }

    method LoadEnvFile(file: EnvFile)
      modifies this
      ensures vars == Loaded(old(vars), file.text)
    {
      if file.text == None {
        return;
      }
      var pieces := Split(file.text.value);
      assert LoadLines(vars, pieces[..0]) == vars;
      hide LoadLines, TrimSpace, Split;
      for i := 0 to |pieces|
        invariant vars == LoadLines(old(vars), pieces[..i])
      {
        assert pieces[..i+1] == pieces[..i] + [pieces[i]];
        LoadOneMore(old(vars), pieces[..i], pieces[i]);
        var line := TrimSpace(pieces[i]);
        if line == "" || line[0] == '#' {
          continue;
        }
        var eqIdx := IndexOf(line, '=');
        if eqIdx <= 0 {
          continue;
        }
        var key, val := line[..eqIdx], line[eqIdx+1..];
        assert line == key + "=" + val;
        if key in vars && vars[key] != "" {
          continue;
        }
        if NUL in key || NUL in val {
          continue;   // os.Setenv fails, and the error is ignored
        }
        vars := vars[key := val];
      }
      assert pieces[..|pieces|] == pieces;
    }
  }

  // ----- What can be stored -----

  /** Names and values the file can hold. */
  predicate Storable(name: string, value: string) {
    && |name| > 0 && !IsSpace(name[0]) && name[0] != '#' && '=' !in name && OneLine(name)
    && NUL !in name && NUL !in value
    && OneLine(value) && (|value| > 0 ==> !IsSpace(value[|value|-1]))
  }

  lemma {:induction false} LoadLineStorable(env: map<string, string>, raw: string)
    requires OneLine(raw) && forall k :: k in env ==> Storable(k, env[k])
    ensures forall k :: k in LoadLine(env, raw) ==> Storable(k, LoadLine(env, raw)[k])
  {
    TrimSpaceTrims(raw);
    var line := TrimSpace(raw);
    var eq := IndexOf(line, '=');
    if eq > 0 && line[0] != '#' {
      assert line == line[..eq] + "=" + line[eq+1..];
      assert NUL !in line ==> Storable(line[..eq], line[eq+1..]);
    }
  }

  lemma {:induction false} LoadedStorable(lines: seq<string>)
    requires forall i :: 0 <= i < |lines| ==> OneLine(lines[i])
    ensures forall k :: k in LoadLines(map[], lines) ==> Storable(k, LoadLines(map[], lines)[k])
  {
    if |lines| > 0 {
      LoadedStorable(lines[..|lines|-1]);
      LoadLineStorable(LoadLines(map[], lines[..|lines|-1]), lines[|lines|-1]);
    }
  }

  // ----- The round trip -----

  lemma {:induction false} OtherLinesTrimmed(lines: seq<string>, name: string)
    requires forall i :: 0 <= i < |lines| ==> OneLine(lines[i])
    ensures forall i :: 0 <= i < |OtherLines(lines, name)| ==> OneLine(OtherLines(lines, name)[i]) && Trimmed(OtherLines(lines, name)[i])
  {
    if |lines| > 0 {
      OtherLinesTrimmed(lines[..|lines|-1], name);
      TrimSpaceTrims(lines[|lines|-1]);
    }
  }

  /** A line that assigns to this name. */
  predicate Assigns(line: string, name: string) {
    name != "" && '=' !in name && name + "=" <= line
  }

  lemma {:induction false} AssignsIff(line: string, name: string)
    ensures KeyOf(line) == Some(name) <==> Assigns(line, name)
  {
    var eq := IndexOf(line, '=');
    if Assigns(line, name) {
      assert line[|name|] == (name + "=")[|name|];
      assert line[..|name|] == (name + "=")[..|name|] == name;
      assert eq == |name|;
    }
    if eq > 0 && line[..eq] == name {
      assert line[..eq+1] == name + "=";
    }
  }

  /** Line by line, what stays in the file, trimmed: all but blank lines and the assignments to this
      name. A comment stays. */
  lemma {:induction false} OtherLinesAre(lines: seq<string>, raw: string, name: string)
    ensures OtherLines(lines + [raw], name) == OtherLines(lines, name) +
              (if TrimSpace(raw) == "" || Assigns(TrimSpace(raw), name) then [] else [TrimSpace(raw)])
    ensures name != "" && name[0] != '#' && TrimSpace(raw) != "" && TrimSpace(raw)[0] == '#' ==>
              OtherLines(lines + [raw], name) == OtherLines(lines, name) + [TrimSpace(raw)]
  {
    assert (lines + [raw])[..|lines|] == lines;
    AssignsIff(TrimSpace(raw), name);
    if Assigns(TrimSpace(raw), name) {
      assert (name + "=")[0] == name[0] == TrimSpace(raw)[0];
    }
  }

  /** Line by line, what is loaded: an assignment sets its variable, unless that is set to something
      already; a variable that is set to nothing is not. No other line does anything. */
  lemma {:induction false} LoadLineSets(env: map<string, string>, raw: string, name: string, value: string)
    requires TrimSpace(raw) == name + "=" + value && name != "" && '=' !in name
    ensures LoadLine(env, raw) ==
              if name[0] == '#' || NUL in name || NUL in value || (name in env && env[name] != "") then env else env[name := value]
  {
    var line := TrimSpace(raw);
    assert line[0] == name[0] && line[|name|] == '=' && line[..|name|] == name && line[|name|+1..] == value;
    assert '=' !in line[..|name|];
    assert IndexOf(line, '=') == |name|;
    assert NUL in line <==> NUL in name || NUL in value;
  }

  lemma {:induction false} LoadLineElse(env: map<string, string>, raw: string)
    requires forall name :: !Assigns(TrimSpace(raw), name)
    ensures LoadLine(env, raw) == env
  {
    var line := TrimSpace(raw);
    var eq := IndexOf(line, '=');
    if eq > 0 {
      AssignsIff(line, line[..eq]);
    }
  }

  lemma {:induction false} LoadOneMore(env: map<string, string>, lines: seq<string>, line: string)
    ensures LoadLines(env, lines + [line]) == LoadLine(LoadLines(env, lines), line)
  {
    assert (lines + [line])[..|lines|] == lines;
  }

  /** Dropping the lines for a name drops that name and nothing else. */
  lemma {:induction false} OtherLinesLoad(lines: seq<string>, name: string)
    requires |name| > 0 && name[0] != '#'
    ensures LoadLines(map[], OtherLines(lines, name)) == LoadLines(map[], lines) - {name}
  {
    if |lines| > 0 {
      var front, raw := lines[..|lines|-1], lines[|lines|-1];
      OtherLinesLoad(front, name);
      TrimSpaceTrims(raw);
      OneLineLoad(LoadLines(map[], front), raw, name);
      LoadOneMore(map[], OtherLines(front, name), TrimSpace(raw));
      assert OtherLines(front, name) + [] == OtherLines(front, name);
      hide LoadLine, KeyOf;
    }
  }

  lemma {:induction false} OneLineLoad(env: map<string, string>, raw: string, name: string)
    requires |name| > 0 && name[0] != '#'
    ensures TrimSpace(raw) == "" || KeyOf(TrimSpace(raw)) == Some(name) ==> LoadLine(env, raw) - {name} == env - {name}
    ensures KeyOf(TrimSpace(raw)) != Some(name) ==> LoadLine(env, raw) - {name} == LoadLine(env - {name}, TrimSpace(raw))
  {
    TrimSpaceTrims(raw);
  }

  /** Loading the file that persistEnvVar writes gives the old mapping updated at that name,
      exactly for the names and values the file can hold. */
  lemma {:induction false} RoundTripIff(text: Option<string>, name: string, value: string)
    ensures Loaded(map[], Some(Written(text, name, value))) == Loaded(map[], text)[name := value] <==> Storable(name, value)
  {
    var written := Written(text, name, value);
    if Storable(name, value) {
      RoundTrip(text, name, value);
    } else {
      var pieces := Split(written);
      forall i | 0 <= i < |pieces| ensures OneLine(pieces[i]) {
        SplitGivesLines(written, i);
      }
      LoadedStorable(pieces);
      var loaded := Loaded(map[], Some(written));
      assert loaded == LoadLines(map[], pieces);
      assert name in loaded ==> loaded[name] != value;
      assert Loaded(map[], text)[name := value][name] == value;
    }
  }

  lemma {:induction false} RoundTrip(text: Option<string>, name: string, value: string)
    requires Storable(name, value)
    ensures Loaded(map[], Some(Written(text, name, value))) == Loaded(map[], text)[name := value]
  {
    hide *;
    var pieces := if text.Some? then Split(text.value) else [];
    var others, line := OtherLines(pieces, name), name + "=" + value;
    var env := LoadLines(map[], pieces);
    WrittenLines(text, name, value);
    LoadedPieces(map[], text);
    LoadedPieces(map[], Some(Written(text, name, value)));
    NameStarts(name, value);
    OtherLinesLoad(pieces, name);
    NewLineLoads(env - {name}, name, value);
    LoadOneMore(map[], others, line);
    LoadOneMore(map[], others + [line], "");
    BlankLoads((env - {name})[name := value]);
  }

  lemma NameStarts(name: string, value: string)
    requires Storable(name, value)
    ensures |name| > 0 && name[0] != '#'
  {
  }

  lemma LoadedPieces(env: map<string, string>, text: Option<string>)
    ensures Loaded(env, text) == LoadLines(env, if text.Some? then Split(text.value) else [])
  {
  }

  lemma BlankLoads(env: map<string, string>)
    ensures LoadLine(env, "") == env
  {
  }

  lemma {:induction false} WrittenLines(text: Option<string>, name: string, value: string)
    requires Storable(name, value)
    ensures Split(Written(text, name, value))
         == OtherLines(if text.Some? then Split(text.value) else [], name) + [name + "=" + value] + [""]
  {
    var pieces := if text.Some? then Split(text.value) else [];
    var all := OtherLines(pieces, name) + [name + "=" + value];
    if text.Some? {
      forall i | 0 <= i < |pieces| ensures OneLine(pieces[i]) {
        SplitGivesLines(text.value, i);
      }
    }
    OtherLinesTrimmed(pieces, name);
    assert OneLine(name + "=" + value);
    hide OtherLines, Join, Split;
    SplitJoined(all);
    assert Written(text, name, value) == Join(all) + "\n" by {
      NoOthers(name);
    }
  }

  lemma NoOthers(name: string)
    ensures OtherLines([], name) == []
  {
  }

  lemma {:induction false} NewLineLoads(env: map<string, string>, name: string, value: string)
    requires Storable(name, value) && name !in env
    ensures LoadLine(env, name + "=" + value) == env[name := value]
  {
    var line := name + "=" + value;
    assert Trimmed(line);
    TrimmedStays(line);
    var eq := IndexOf(line, '=');
    assert line[|name|] == '=' && line[..|name|] == name && line[|name|+1..] == value;
    assert '=' !in line[..|name|];
    assert eq == |name|;
  }

  /** A variable that is already set and not empty is never changed by the file. */
  lemma {:induction false} EnvironmentWins(env: map<string, string>, lines: seq<string>, key: string)
    requires key in env && env[key] != ""
    ensures key in LoadLines(env, lines) && LoadLines(env, lines)[key] == env[key]
  {
    if |lines| > 0 {
      EnvironmentWins(env, lines[..|lines|-1], key);
    }
  }
}
