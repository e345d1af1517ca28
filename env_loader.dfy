/** The `.env` loader (src/utils/env_loader.py): the search for a `.env`
    file in the working directory and its two nearest ancestors, the line
    parser, and the process environment it writes every loaded variable
    into.

    The file system is a value: the working directory, how a directory's
    parent is found, and the lines of every file that exists. The process
    environment is an object whose variables `load_dotenv` updates one by
    one. */
module EnvLoader {

  import opened Common
  import opened Text

  // ---------------------------------------------------------------------------
  // The line parser
  // ---------------------------------------------------------------------------

  /** The value is wrapped in a matching pair of double or single quotes
      (a lone quote character counts: it both starts and ends the value). */
  predicate Quoted(v: string) {
    (StartsWith(v, "\"") && EndsWith(v, "\"")) || (StartsWith(v, "'") && EndsWith(v, "'"))
  }

  /** `value[1:-1]` when the value is quoted, the value itself otherwise. */
  function Unquote(v: string): (r: string)
    ensures !Quoted(v) ==> r == v
    ensures Quoted(v) && |v| >= 2 ==> v == [v[0]] + r + [v[0]]
    ensures Quoted(v) && |v| == 1 ==> r == ""
  {
    if !Quoted(v) then v
    else if |v| >= 2 then v[1..|v| - 1]
    else ""
  }

  /** The key and value one line of a `.env` file defines, if any: the line
      is stripped; an empty line, a comment and a line without "=" define
      nothing; otherwise the line is split at its first "=", both halves are
      stripped and the value loses one layer of matching quotes. */
  function ParseLine(line: string): (r: Option<(string, string)>)
    ensures var s := Strip(line);
      (s == "" || s[0] == '#' || '=' !in s) ==> r.None?
  {
    var s := Strip(line);
    if s == "" || StartsWith(s, "#") || '=' !in s then None
    else
      var (key, value) := SplitOnce(s, '=');
      Some((Strip(key), Unquote(Strip(value))))
  }

  /** A line that defines something is split at its first "=": the key is
      the stripped text before it, and the value comes from everything after
      it, further "=" signs included. */
  lemma ParseLineSplits(line: string)
    requires ParseLine(line).Some?
    ensures var s := Strip(line);
      exists before: string, after: string ::
        && s == before + "=" + after
        && '=' !in before
        && ParseLine(line) == Some((Strip(before), Unquote(Strip(after))))
  {
    var s := Strip(line);
    var (before, after) := SplitOnce(s, '=');
    assert s == before + "=" + after;
  }

  /** A separator's first occurrence is unique. */
  lemma SplitUnique(a: string, b: string, a': string, b': string, c: char)
    requires a + [c] + b == a' + [c] + b'
    requires c !in a && c !in a'
    ensures a == a' && b == b'
  {
    var s := a + [c] + b;
    assert s[|a|] == c && s[|a'|] == c;
    assert |a'| <= |a| by {
      assert forall i | 0 <= i < |a'| :: s[i] == a'[i];
    }
    assert |a| <= |a'| by {
      assert forall i | 0 <= i < |a| :: s[i] == a[i];
    }
    assert a == s[..|a|] == a';
    assert b == s[|a| + 1..] == b';
  }

  /** A key that `ParseLine` can return unchanged. */
  predicate PlainKey(k: string) {
    k != "" && !IsSpace(k[0]) && !IsSpace(k[|k| - 1]) && k[0] != '#' && '=' !in k
  }

  lemma ParseLineOf(k: string, v: string)
    requires PlainKey(k)
    requires v == "" || (!IsSpace(v[0]) && !IsSpace(v[|v| - 1]))
    ensures ParseLine(k + "=" + v) == Some((k, Unquote(v)))
  {
    var line := k + "=" + v;
    assert line[0] == k[0];
    assert line[|line| - 1] == if v == "" then '=' else v[|v| - 1];
    StripTrimmed(line);
    assert '=' in line by { assert line[|k|] == '='; }
    assert !StartsWith(line, "#") by { assert line[..1] == [k[0]]; }
    var (before, after) := SplitOnce(line, '=');
    SplitUnique(before, after, k, v, '=');
    StripTrimmed(k);
    StripTrimmed(v);
    assert ParseLine(line) == Some((Strip(before), Unquote(Strip(after))));
  }

  /** Writing `KEY=VALUE` for a plain key and a stripped value that is not
      quoted reads back as that key and value. */
  lemma PlainLineRoundTrip(k: string, v: string)
    requires PlainKey(k)
    requires v == "" || (!IsSpace(v[0]) && !IsSpace(v[|v| - 1]))
    requires !Quoted(v)
    ensures ParseLine(k + "=" + v) == Some((k, v))
  {
    ParseLineOf(k, v);
  }

  /** Writing `KEY="VALUE"` reads back as exactly that value, whatever it
      holds: surrounding spaces, "=" signs, "#" or quotes. */
  lemma QuotedLineRoundTrip(k: string, v: string)
    requires PlainKey(k)
    ensures ParseLine(k + "=" + ("\"" + v + "\"")) == Some((k, v))
  {
    var q := "\"" + v + "\"";
    assert q[0] == '"' && q[|q| - 1] == '"';
    assert StartsWith(q, "\"") && EndsWith(q, "\"");
    ParseLineOf(k, q);
    assert q[1..|q| - 1] == v;
  }

  // ---------------------------------------------------------------------------
  // The process environment
  // ---------------------------------------------------------------------------

  /** Why `os.environ[key] = value` refuses a variable, if it does: an empty
      name is illegal, and neither part may hold a NUL character. */
  function SetError(key: string, value: string): (e: Option<Exc>)
    ensures e.None? <==> key != "" && '\0' !in key && '\0' !in value
    ensures e.Some? ==> e.value.kind == ValueError
  {
    if key == "" then Some(Exc(ValueError, "illegal environment variable name"))
    else if '\0' in key || '\0' in value then Some(Exc(ValueError, "embedded null byte"))
    else None
  }

  class Environment {
    var vars: map<string, string>

    constructor (initial: map<string, string>)
      ensures vars == initial
    {
      vars := initial;
    }

    /** `os.environ[key] = value`. */
    method Set(key: string, value: string) returns (err: Option<Exc>)
      modifies this
      ensures err == SetError(key, value)
      ensures err.None? ==> vars == old(vars)[key := value]
      ensures err.Some? ==> vars == old(vars)
    {
      err := SetError(key, value);
      if err.None? {
        vars := vars[key := value];
      }
    }

    /** `get_env_var(key, default)`: the variable when it is set, the default
        otherwise. */
    function Get(key: string, default: Option<string>): (r: Option<string>)
      reads this
      ensures key in vars ==> r == Some(vars[key])
      ensures key !in vars ==> r == default
    {
      if key in vars then Some(vars[key]) else default
    }
  }

  // ---------------------------------------------------------------------------
  // Loading the lines of one file
  // ---------------------------------------------------------------------------

  /** What reading some lines produces: the variables loaded so far, and the
      error that stopped the reading, if one did. */
  datatype Loaded = Loaded(vars: map<string, string>, error: Option<Exc>)

  /** One more line read: a definition is loaded unless the environment
      refuses it, which ends the reading with that error. */
  function LoadLine(prev: Loaded, parsed: Option<(string, string)>): (next: Loaded)
    ensures prev.error.Some? ==> next == prev
    ensures prev.error.None? && parsed.None? ==> next == prev
    ensures prev.error.None? && parsed.Some? ==>
      var (k, v) := parsed.value;
      next == if SetError(k, v).Some? then Loaded(prev.vars, SetError(k, v)) else Loaded(prev.vars[k := v], None)
  {
    if prev.error.Some? || parsed.None? then prev
    else
      var (k, v) := parsed.value;
      var e := SetError(k, v);
      if e.Some? then Loaded(prev.vars, e) else Loaded(prev.vars[k := v], None)
  }

  /** What each line of a file defines, line by line. */
  function Definitions(lines: seq<string>): (defs: seq<Option<(string, string)>>)
    ensures |defs| == |lines|
    ensures forall i | 0 <= i < |lines| :: defs[i] == ParseLine(lines[i])
  {
    seq(|lines|, i requires 0 <= i < |lines| => ParseLine(lines[i]))
  }

  /** The definitions read in order. */
  function LoadAll(defs: seq<Option<(string, string)>>): Loaded
    decreases |defs|
  {
    if defs == [] then Loaded(map[], None)
    else LoadLine(LoadAll(defs[..|defs| - 1]), defs[|defs| - 1])
  }

  lemma LoadAllStep(defs: seq<Option<(string, string)>>, i: nat)
    requires i < |defs|
    ensures LoadAll(defs[..i + 1]) == LoadLine(LoadAll(defs[..i]), defs[i])
  {
    assert defs[..i + 1][..i] == defs[..i];
  }

  /** A reading that completes had completed on every prefix too. */
  lemma {:induction false} LoadAllPrefix(defs: seq<Option<(string, string)>>, n: nat)
    requires n <= |defs|
    requires LoadAll(defs).error.None?
    ensures LoadAll(defs[..n]).error.None?
    decreases |defs|
  {
    if n < |defs| {
      var init := defs[..|defs| - 1];
      assert init[..n] == defs[..n];
      LoadAllPrefix(init, n);
    } else {
      assert defs[..n] == defs;
    }
  }

  /** Once the environment refuses a variable, nothing after it is read. */
  lemma {:induction false} LoadAllStops(defs: seq<Option<(string, string)>>, more: seq<Option<(string, string)>>)
    requires LoadAll(defs).error.Some?
    ensures LoadAll(defs + more) == LoadAll(defs)
    decreases |more|
  {
    if more == [] {
      assert defs + more == defs;
    } else {
      var init := more[..|more| - 1];
      assert (defs + more)[..|defs + more| - 1] == defs + init;
      LoadAllStops(defs, init);
    }
  }

  lemma LoadAllStopsAt(defs: seq<Option<(string, string)>>, n: nat)
    requires n <= |defs|
    requires LoadAll(defs[..n]).error.Some?
    ensures LoadAll(defs) == LoadAll(defs[..n])
  {
    LoadAllStops(defs[..n], defs[n..]);
    assert defs[..n] + defs[n..] == defs;
  }

  /** When the reading completes, the last definition of a key gives its
      value: later duplicates overwrite earlier ones. */
  lemma {:induction false} LoadAllLastWins(defs: seq<Option<(string, string)>>, j: nat, k: string, v: string)
    requires LoadAll(defs).error.None?
    requires j < |defs| && defs[j] == Some((k, v))
    requires forall j' | j < j' < |defs| :: defs[j'].None? || defs[j'].value.0 != k
    ensures k in LoadAll(defs).vars && LoadAll(defs).vars[k] == v
    decreases |defs|
  {
    var last := |defs| - 1;
    var init := defs[..last];
    LoadAllPrefix(defs, last);
    if j < last {
      assert init[j] == defs[j];
      LoadAllLastWins(init, j, k, v);
    }
  }

  /** Every loaded key has a definition with that value. */
  lemma {:induction false} LoadAllOnly(defs: seq<Option<(string, string)>>, k: string)
    requires k in LoadAll(defs).vars
    ensures exists j | 0 <= j < |defs| :: defs[j] == Some((k, LoadAll(defs).vars[k]))
    decreases |defs|
  {
    var last := |defs| - 1;
    var init := defs[..last];
    var prev := LoadAll(init);
    var d := defs[last];
    if d.Some? && d.value.0 == k && prev.error.None? && SetError(k, d.value.1).None? {
      assert d == Some((k, LoadAll(defs).vars[k]));
    } else {
      LoadAllOnly(init, k);
      var j :| 0 <= j < |init| && init[j] == Some((k, prev.vars[k]));
      assert defs[j] == init[j];
    }
  }

  /** The variables a file defines: a key is loaded exactly when some line
      defines it, and then with the value of the last line that does. */
  lemma FileLastWins(lines: seq<string>, j: nat, k: string, v: string)
    requires LoadAll(Definitions(lines)).error.None?
    requires j < |lines| && ParseLine(lines[j]) == Some((k, v))
    requires forall j' | j < j' < |lines| :: ParseLine(lines[j']).None? || ParseLine(lines[j']).value.0 != k
    ensures k in LoadAll(Definitions(lines)).vars && LoadAll(Definitions(lines)).vars[k] == v
  {
    LoadAllLastWins(Definitions(lines), j, k, v);
  }

  lemma FileOnly(lines: seq<string>, k: string)
    requires k in LoadAll(Definitions(lines)).vars
    ensures exists j | 0 <= j < |lines| :: ParseLine(lines[j]) == Some((k, LoadAll(Definitions(lines)).vars[k]))
  {
    LoadAllOnly(Definitions(lines), k);
  }

  // ---------------------------------------------------------------------------
  // Finding and loading the file
  // ---------------------------------------------------------------------------

  /** The working directory, how a directory's parent is found, and the
      lines of every existing file by path. */
  datatype FileSystem = FileSystem(cwd: string, parent: string -> string, files: map<string, seq<string>>)

  /** `Path(dir) / ".env"`. */
  function DotenvIn(dir: string): (p: string)
    ensures EndsWith(p, ".env")
  {
    if dir != "" && dir[|dir| - 1] == '/' then dir + ".env" else dir + "/.env"
  }

  /** The working directory, its parent and its grandparent, in that order. */
  function SearchPaths(fs: FileSystem): (paths: seq<string>)
    ensures |paths| == 3
  {
    [DotenvIn(fs.cwd), DotenvIn(fs.parent(fs.cwd)), DotenvIn(fs.parent(fs.parent(fs.cwd)))]
  }

  /** The first of `paths` that names an existing file. */
  function FirstExisting(paths: seq<string>, files: map<string, seq<string>>): (r: Option<nat>)
    ensures r.Some? ==> r.value < |paths| && paths[r.value] in files
    ensures r.Some? ==> forall j | 0 <= j < r.value :: paths[j] !in files
    ensures r.None? ==> forall j | 0 <= j < |paths| :: paths[j] !in files
  {
    if paths == [] then None
    else if paths[0] in files then Some(0)
    else
      var rest := FirstExisting(paths[1..], files);
      if rest.None? then None else Some(rest.value + 1)
  }

  /** The file `load_dotenv` reads, if any: the given path when there is
      one, else the first `.env` of the search; and only if it exists. */
  function DotenvFile(fs: FileSystem, given: Option<string>): (r: Option<string>)
    ensures r.Some? ==> r.value in fs.files
    ensures given.Some? ==> (r.Some? <==> given.value in fs.files)
    ensures given.Some? && r.Some? ==> r == given
  {
    var chosen :=
      if given.Some? then given
      else
        var i := FirstExisting(SearchPaths(fs), fs.files);
        if i.Some? then Some(SearchPaths(fs)[i.value]) else None;
    if chosen.Some? && chosen.value in fs.files then chosen else None
  }

  /** Without a given path, the file read is the first existing `.env` of
      the working directory, its parent and its grandparent, and there is
      none when none of the three exists. */
  lemma DotenvSearchOrder(fs: FileSystem)
    ensures var r := DotenvFile(fs, None);
      var paths := SearchPaths(fs);
      && (r.None? <==> (forall j | 0 <= j < 3 :: paths[j] !in fs.files))
      && (r.Some? ==> exists i | 0 <= i < 3 :: r.value == paths[i] && forall j | 0 <= j < i :: paths[j] !in fs.files)
  {
    var i := FirstExisting(SearchPaths(fs), fs.files);
    if i.Some? {
      assert DotenvFile(fs, None).value == SearchPaths(fs)[i.value];
    }
  }

  /** The search loop, stopping at the first candidate that exists. */
  method FindDotenv(fs: FileSystem) returns (path: Option<string>)
    ensures path == DotenvFile(fs, None)
  {
    var paths := SearchPaths(fs);
    path := None;
    var i := 0;
    while i < |paths|
      invariant 0 <= i <= |paths|
      invariant forall j | 0 <= j < i :: paths[j] !in fs.files
      invariant path.None?
    {
      if paths[i] in fs.files {
        path := Some(paths[i]);
        break;
      }
      i := i + 1;
    }
    var first := FirstExisting(paths, fs.files);
    assert path.Some? ==> first == Some(i);
  }

  lemma UnionUpdate(a: map<string, string>, b: map<string, string>, k: string, v: string)
    ensures a + b[k := v] == (a + b)[k := v]
  {
  }

  /** The reading loop over the lines of the chosen file. */
  method ReadLines(env: Environment, lines: seq<string>) returns (r: Result<map<string, string>>)
    modifies env
    ensures var loaded := LoadAll(Definitions(lines));
      && env.vars == old(env.vars) + loaded.vars
      && r == if loaded.error.Some? then Err(loaded.error.value) else Ok(loaded.vars)
  {
    ghost var defs := Definitions(lines);
    var loaded: map<string, string> := map[];
    for i := 0 to |lines|
      invariant LoadAll(defs[..i]) == Loaded(loaded, None)
      invariant env.vars == old(env.vars) + loaded
    {
      LoadAllStep(defs, i);
      var parsed := ParseLine(lines[i]);
      if parsed.Some? {
        var (key, value) := parsed.value;
        var err := env.Set(key, value);
        if err.Some? {
          LoadAllStopsAt(defs, i + 1);
          return Err(err.value);
        }
        UnionUpdate(old(env.vars), loaded, key, value);
        loaded := loaded[key := value];
      }
    }
    assert defs[..|lines|] == defs;
    r := Ok(loaded);
  }

  /** `Path("")` is the working directory, which exists, but `open("")`
      finds no file. */
  const EmptyPathMessage: string := "[Errno 2] No such file or directory: ''"

  /** `load_dotenv(dotenv_path)`: reads the file line by line, setting each
      definition in the environment as it goes; returns what it loaded, or
      the environment's error, after which the variables set before the
      refused line stay set. An empty path passes the existence check and
      then fails to open. */
  method LoadDotenv(env: Environment, fs: FileSystem, given: Option<string>) returns (r: Result<map<string, string>>)
    modifies env
    ensures given == Some("") ==> r == Err(Exc(IOError, EmptyPathMessage)) && env.vars == old(env.vars)
    ensures given != Some("") ==> var file := DotenvFile(fs, given);
      && (file.None? ==> r == Ok(map[]) && env.vars == old(env.vars))
      && (file.Some? ==>
            var loaded := LoadAll(Definitions(fs.files[file.value]));
            && env.vars == old(env.vars) + loaded.vars
            && r == if loaded.error.Some? then Err(loaded.error.value) else Ok(loaded.vars))
    ensures r.Ok? ==> forall k | k in r.value :: env.Get(k, None) == Some(r.value[k])
  {
    if given == Some("") {
      return Err(Exc(IOError, EmptyPathMessage));
    }
    var path := given;
    if path.None? {
      path := FindDotenv(fs);
    }
    if path.None? || path.value !in fs.files {
      return Ok(map[]);
    }
    r := ReadLines(env, fs.files[path.value]);
  }
}
