/**
  `load_env`: the lines of a `.env` file applied, one by one, to the process
  environment. Reading the file is left to the caller, who passes its lines
  as Python's `for line in f` yields them (each with its line terminator).
 */
module EnvFile {
  import opened Wrappers
  import opened PyStr

  /** One `KEY=value` assignment taken from a line. */
  datatype Binding = Binding(key: string, value: string)

  /**
    A line `load_env` skips: blank once stripped, starting with `#` (tested on
    the raw line, before stripping), or without any `=`.
   */
  predicate Skipped(line: string)
  {
    Strip(line) == [] || "#" <= line || '=' !in line
  }

  /** The binding a line yields, if any: `line.strip().split('=', 1)` with the value unquoted. */
  function ParseLine(line: string): (r: Option<Binding>)
    ensures r.None? <==> Skipped(line)
  {
    if Skipped(line) then None
    else
      StripKeeps(line, IsSpace, '=');
      var parts := SplitOnce(Strip(line), '=');
      assert parts.Some?;
      var s := Strip(line);
      assert s[..|parts.value.0|] == parts.value.0 && s[|parts.value.0| + 1..] == parts.value.1 by {
        assert s == parts.value.0 + ['='] + parts.value.1;
      }
      Some(Binding(parts.value.0, StripChars(parts.value.1, IsQuote)))
  }

  /**
    The key is the stripped line's text before its first `=`, kept as it is;
    the value is all the rest, with every `"` and `'` removed from both of its
    ends (so it may itself contain `=`).
   */
  lemma ParseLineShape(line: string)
    requires !Skipped(line)
    ensures var b, s := ParseLine(line).value, Strip(line);
      && '=' !in b.key
      && |b.key| < |s| && s[..|b.key|] == b.key && s[|b.key|] == '='
      && b.value == StripChars(s[|b.key| + 1..], IsQuote)
  {
  }

  /** The line a `.env` writer would emit for `key` and `value`. */
  function Render(key: string, value: string): string
  {
    key + "=" + value + "\n"
  }

  /**
    Round trip: a rendered assignment reads back as the same binding, provided
    the key holds no `=`, does not start with `#` or whitespace, and the value
    neither ends in whitespace nor starts or ends with a quote.
   */
  lemma ParseRendered(key: string, value: string)
    requires '=' !in key
    requires key != [] ==> key[0] != '#' && !IsSpace(key[0])
    requires value != [] ==> !IsSpace(value[|value| - 1])
    requires value != [] ==> !IsQuote(value[0]) && !IsQuote(value[|value| - 1])
    ensures ParseLine(Render(key, value)) == Some(Binding(key, value))
  {
    var line := Render(key, value);
    var body := key + "=" + value;
    assert line == body + "\n" && line[|body|] == '\n';
    assert !IsSpace(line[0]) && !IsSpace(line[|body| - 1]);
    assert SkipLeading(line, IsSpace, 0) == 0;
    assert SkipTrailing(line, IsSpace, 0, |line|) == |body|;
    assert Strip(line) == body && line[|key|] == '=';
    assert !("#" <= line) by {
      assert line[0] == if key == [] then '=' else key[0];
    }
    assert !Skipped(line);
    SplitOnceJoin(key, '=', value);
    StripCharsUnchanged(value, IsQuote);
  }

  /** The environment after one line has been applied (`os.environ[key] = value`). */
  function ApplyLine(env: map<string, string>, line: string): map<string, string>
  {
    match ParseLine(line)
    case None => env
    case Some(b) => env[b.key := b.value]
  }

  /** What one line does to one key. */
  lemma ApplyLineEffect(env: map<string, string>, line: string, key: string)
    ensures key in ApplyLine(env, line) <==> key in env || Assigns(line, key)
    ensures Assigns(line, key) ==> ApplyLine(env, line)[key] == ParseLine(line).value.value
    ensures !Assigns(line, key) && key in env ==> ApplyLine(env, line)[key] == env[key]
  {
  }

  /** The environment after the lines have been applied in order. */
  function ApplyLines(env: map<string, string>, lines: seq<string>): map<string, string>
    decreases |lines|
  {
    if lines == [] then env
    else ApplyLine(ApplyLines(env, lines[..|lines| - 1]), lines[|lines| - 1])
  }

  /** Line `line` assigns `key`. */
  predicate Assigns(line: string, key: string)
  {
    ParseLine(line).Some? && ParseLine(line).value.key == key
  }

  /** `lines[i]` is the last line that assigns `key`. */
  predicate LastAssignment(lines: seq<string>, i: int, key: string)
  {
    0 <= i < |lines| && Assigns(lines[i], key)
    && forall j :: i < j < |lines| ==> !Assigns(lines[j], key)
  }

  /** A key is set after `load_env` exactly when it was set before or some line assigns it. */
  lemma {:induction false} LoadedKeys(env: map<string, string>, lines: seq<string>, key: string)
    ensures key in ApplyLines(env, lines) <==>
      key in env || exists i :: 0 <= i < |lines| && Assigns(lines[i], key)
    decreases |lines|
  {
    if lines != [] {
      var init, last := lines[..|lines| - 1], lines[|lines| - 1];
      LoadedKeys(env, init, key);
      ApplyLineEffect(ApplyLines(env, init), last, key);
      assert forall i :: 0 <= i < |init| ==> init[i] == lines[i];
      if key in ApplyLines(env, lines) && key !in env {
        if Assigns(last, key) {
          assert Assigns(lines[|lines| - 1], key);
        } else {
          var i :| 0 <= i < |init| && Assigns(init[i], key);
          assert Assigns(lines[i], key);
        }
      }
    }
  }

  /** Later lines win: a key takes the value of the last line that assigns it. */
  lemma {:induction false} LoadedValue(env: map<string, string>, lines: seq<string>, key: string, i: int)
    requires LastAssignment(lines, i, key)
    ensures key in ApplyLines(env, lines)
    ensures ApplyLines(env, lines)[key] == ParseLine(lines[i]).value.value
    decreases |lines|
  {
    var init := lines[..|lines| - 1];
    ApplyLineEffect(ApplyLines(env, init), lines[|lines| - 1], key);
    if i < |init| {
      assert init[i] == lines[i];
      forall j | i < j < |init| ensures !Assigns(init[j], key) {
        assert init[j] == lines[j];
      }
      LoadedValue(env, init, key, i);
    }
  }

  /** A key that no line assigns keeps the value it had. */
  lemma {:induction false} UnassignedUnchanged(env: map<string, string>, lines: seq<string>, key: string)
    requires key in env
    requires forall i :: 0 <= i < |lines| ==> !Assigns(lines[i], key)
    ensures key in ApplyLines(env, lines) && ApplyLines(env, lines)[key] == env[key]
    decreases |lines|
  {
    if lines != [] {
      var init := lines[..|lines| - 1];
      forall j | 0 <= j < |init| ensures !Assigns(init[j], key) {
        assert init[j] == lines[j];
      }
      UnassignedUnchanged(env, init, key);
    }
  }

  /** The process environment, `os.environ`. */
  class Environ {
    var vars: map<string, string>

    constructor (vars: map<string, string>)
      ensures this.vars == vars
    {
      this.vars := vars;
    }

    /** `load_env` over the given lines of the `.env` file. */
    method LoadEnv(lines: seq<string>)
      modifies this
      ensures vars == ApplyLines(old(vars), lines)
    {
      for n := 0 to |lines|
        invariant vars == ApplyLines(old(vars), lines[..n])
      {
        assert lines[..n + 1][..n] == lines[..n];
        var line := lines[n];
        if Strip(line) != [] && !("#" <= line) && '=' in line {
          StripKeeps(line, IsSpace, '=');
          var parts := SplitOnce(Strip(line), '=');
          var key, value := parts.value.0, parts.value.1;
          vars := vars[key := StripChars(value, IsQuote)];
        }
      }
      assert lines[..|lines|] == lines;
    }
  }
}
