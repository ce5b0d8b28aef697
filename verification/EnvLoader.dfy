/** Layered environment files: a file's blank assignment means unset, and the process
    environment wins over every file. The loop over one file's entries is proved against a rule
    for one key, and any sequence of files against "first non-blank value wins". */
module EnvLoader {
  import opened Wrappers

  type Env = map<string, string>

  /** A parsed file; a name may stand without any assignment. */
  type File = map<string, Option<string>>

  /** Which values count as blank, which values of the opt-out disable files, which names are
      obsolete. */
  datatype Rules = Rules(blank: string -> bool, disabling: string -> bool, obsolete: set<string>)

  const OPT_OUT := "PYTHON_DOTENV_DISABLED"
  const TOKENIZER_OUTPUTS := {"RAYON_NUM_THREADS", "TOKENIZERS_PARALLELISM"}

  datatype Outcome = Rejected | Loaded(env: Env)

  // ----- one file --------------------------------------------------------------------------------

  /** One key after one assignment of it. */
  function After(r: Rules, before: Option<string>, given: Option<string>, override: bool): Option<string> {
    if given.None? then before
    else
      var set_ := if override || before.None? then given else before;
      if r.blank(given.value) && r.blank(set_.value) then None else set_
  }

  function LoadedAt(r: Rules, env: Env, file: File, override: bool, k: string): Option<string> {
    if k in file && k !in TOKENIZER_OUTPUTS then After(r, Lookup(env, k), file[k], override) else Lookup(env, k)
  }

  /** The same, with the names written out: a file's value is taken when the process has none or is
      overridden; a blank assignment then unsets a blank; the two tokenizer outputs stay. */
  function EndsAs(r: Rules, env: Env, file: File, override: bool, k: string): Option<string> {
    if k == "RAYON_NUM_THREADS" || k == "TOKENIZERS_PARALLELISM" || k !in file || file[k].None? then Lookup(env, k)
    else if k !in env || override then (if r.blank(file[k].value) then None else file[k])
    else if r.blank(file[k].value) && r.blank(env[k]) then None
    else Some(env[k])
  }

  predicate Disabled(r: Rules, env: Env) {
    OPT_OUT in env && r.disabling(env[OPT_OUT])
  }

  /** The loaded environment, key by key. */
  ghost predicate LoadsTo(r: Rules, env: Env, file: File, override: bool, after: Outcome) {
    if env.Keys !! r.obsolete then
      if Disabled(r, env) then after == Loaded(env)
      else if file.Keys !! r.obsolete then
        after.Loaded? && forall k :: Lookup(after.env, k) == LoadedAt(r, env, file, override, k)
      else after.Rejected?
    else after.Rejected?
  }

  lemma EndsAsLoaded(r: Rules, env: Env, file: File, override: bool, k: string)
    ensures LoadedAt(r, env, file, override, k) == EndsAs(r, env, file, override, k)
  {
  }

  /** One load, overriding or not, with every name written out: an obsolete name in the process, or
      in a file that is not switched off, rejects it; a file that is switched off does nothing. */
  lemma LoadedIs(r: Rules, env: Env, file: File, override: bool, after: Outcome)
    requires LoadsTo(r, env, file, override, after)
    ensures var off := "PYTHON_DOTENV_DISABLED" in env && r.disabling(env["PYTHON_DOTENV_DISABLED"]);
            && (after.Rejected? <==> (exists name :: name in r.obsolete && name in env)
                                     || (!off && exists name :: name in r.obsolete && name in file))
            && (after.Loaded? && off ==> after.env == env)
            && (after.Loaded? && !off ==> forall k :: Lookup(after.env, k) == EndsAs(r, env, file, override, k))
  {
    hide LoadedAt, EndsAs;
    forall k { EndsAsLoaded(r, env, file, override, k); }
  }

  class Environment {
    var values: Env

    constructor (values: Env)
      ensures this.values == values
    {
      this.values := values;
    }

    /** Loads one file, entry by entry; a rejected load leaves the environment as it was. */
    method LoadDotenvPruned(r: Rules, file: File, override: bool) returns (rejected: bool)
      modifies this
      ensures LoadsTo(r, old(values), file, override, if rejected then Rejected else Loaded(values))
      ensures rejected ==> values == old(values)
    {
      hide LoadedAt, Lookup;
      if exists name :: name in r.obsolete && name in values { return true; }
      if OPT_OUT in values && r.disabling(values[OPT_OUT]) { return false; }
      if exists name :: name in r.obsolete && name in file { return true; }
      forall k | k !in file { NotInFile(r, values, file, override, k); }
      var remaining := file.Keys;
      while remaining != {}
        invariant remaining <= file.Keys
        invariant forall k :: k in remaining ==> Lookup(values, k) == Lookup(old(values), k)
        invariant forall k :: k !in remaining ==> Lookup(values, k) == LoadedAt(r, old(values), file, override, k)
        decreases |remaining|
      {
        var key :| key in remaining;
        remaining := remaining - {key};
        LoadEntry(r, key, file[key], override);
        assert Lookup(values, key) == LoadedAt(r, old(values), file, override, key) by {
          EntryLoads(r, old(values), file, override, key);
        }
      }
      return false;
    }

    method LoadEntry(r: Rules, key: string, given: Option<string>, override: bool)
      modifies this
      ensures Lookup(values, key) == (if key in TOKENIZER_OUTPUTS then Lookup(old(values), key) else After(r, Lookup(old(values), key), given, override))
      ensures forall k :: k != key ==> Lookup(values, k) == Lookup(old(values), k)
    {
      if key in TOKENIZER_OUTPUTS || given.None? { return; }
      if override || key !in values {
        values := values[key := given.value];
      }
      if r.blank(given.value) && (key !in values || r.blank(values[key])) {
        values := values - {key};
      }
    }

    /** Mode files: home secrets first, then the committed presets, or the home file again when
        there are none. */
    method LoadExistingModePaths(r: Rules, presets: Option<File>, home: Option<File>) returns (rejected: bool, loaded: Option<File>)
      modifies this
      ensures Layer(r, old(values), ModeFiles(presets, home)) == if rejected then Rejected else Loaded(values)
      ensures !rejected ==> loaded == if presets.Some? then presets else home
    {
      loaded := None;
      ghost var start := values;
      if home.Some? {
        rejected := LoadDotenvPruned(r, home.value, false);
        OneLayer(r, start, home.value, if rejected then Rejected else Loaded(values));
        if rejected {
          RejectedStays(r, start, [home.value], if presets.Some? then presets.value else home.value);
          return;
        }
      }
      ghost var middle := values;
      rejected := false;
      if presets.Some? {
        rejected := LoadDotenvPruned(r, presets.value, false);
        loaded := presets;
      } else if home.Some? {
        rejected := LoadDotenvPruned(r, home.value, false);
        loaded := home;
      }
      ghost var after := if rejected then Rejected else Loaded(values);
      if presets.Some? || home.Some? {
        var second := if presets.Some? then presets.value else home.value;
        if home.Some? {
          AnotherLayer(r, start, [home.value], middle, second, after);
        } else {
          OneLayer(r, start, second, after);
        }
      }
    }
  }

  lemma NotInFile(r: Rules, env: Env, file: File, override: bool, k: string)
    requires k !in file
    ensures LoadedAt(r, env, file, override, k) == Lookup(env, k)
  {
  }

  lemma EntryLoads(r: Rules, env: Env, file: File, override: bool, key: string)
    requires key in file
    ensures LoadedAt(r, env, file, override, key)
         == if key in TOKENIZER_OUTPUTS then Lookup(env, key) else After(r, Lookup(env, key), file[key], override)
  {
  }

  function ModeFiles(presets: Option<File>, home: Option<File>): seq<File> {
    (if home.Some? then [home.value] else [])
    + if presets.Some? then [presets.value] else if home.Some? then [home.value] else []
  }

  // ----- any number of files -----------------------------------------------------------------------

  function Load(r: Rules, env: Env, file: File): Outcome {
    if exists name :: name in r.obsolete && name in env then Rejected
    else if Disabled(r, env) then Loaded(env)
    else if exists name :: name in r.obsolete && name in file then Rejected
    else Loaded(map k | k in env.Keys + file.Keys && LoadedAt(r, env, file, false, k).Some? :: LoadedAt(r, env, file, false, k).value)
  }

  function Layer(r: Rules, env: Env, files: seq<File>): Outcome {
    if files == [] then Loaded(env)
    else match Layer(r, env, files[..|files| - 1])
      case Rejected => Rejected
      case Loaded(before) => Load(r, before, files[|files| - 1])
  }

  /** The key-by-key statement determines the environment. */
  lemma LoadIs(r: Rules, env: Env, file: File, after: Outcome)
    requires LoadsTo(r, env, file, false, after)
    ensures after == Load(r, env, file)
  {
    if env.Keys !! r.obsolete && !Disabled(r, env) && file.Keys !! r.obsolete {
      var merged := Load(r, env, file).env;
      forall k
        ensures Lookup(merged, k) == Lookup(after.env, k)
      {
      }
      SameLookups(merged, after.env);
    }
  }

  lemma LoadAt(r: Rules, env: Env, file: File)
    ensures Load(r, env, file).Loaded? && !Disabled(r, env) ==>
              forall k :: Lookup(Load(r, env, file).env, k) == LoadedAt(r, env, file, false, k)
    ensures Load(r, env, file).Loaded? && Disabled(r, env) ==> Load(r, env, file).env == env
  {
  }

  lemma OneLayer(r: Rules, env: Env, file: File, after: Outcome)
    requires LoadsTo(r, env, file, false, after)
    ensures Layer(r, env, [file]) == after
  {
    LoadIs(r, env, file, after);
    assert [file][..0] == [];
  }

  lemma AnotherLayer(r: Rules, env: Env, files: seq<File>, middle: Env, file: File, after: Outcome)
    requires Layer(r, env, files) == Loaded(middle) && LoadsTo(r, middle, file, false, after)
    ensures Layer(r, env, files + [file]) == after
  {
    LoadIs(r, middle, file, after);
    assert (files + [file])[..|files|] == files;
  }

  lemma RejectedStays(r: Rules, env: Env, files: seq<File>, file: File)
    requires Layer(r, env, files).Rejected?
    ensures Layer(r, env, files + [file]).Rejected?
  {
    assert (files + [file])[..|files|] == files;
  }

  // ----- first non-blank wins --------------------------------------------------------------------------

  /** What the files that were not disabled assign to the key, in order. */
  function Assigned(r: Rules, env: Env, files: seq<File>, k: string): seq<string> {
    if files == [] then []
    else
      var n := |files| - 1;
      var before := Layer(r, env, files[..n]);
      Assigned(r, env, files[..n], k)
      + if before.Loaded? && !("PYTHON_DOTENV_DISABLED" in before.env && r.disabling(before.env["PYTHON_DOTENV_DISABLED"])) && k in files[n] && files[n][k].Some? then [files[n][k].value] else []
  }

  function FirstNonBlank(r: Rules, values: seq<string>): Option<string> {
    if values == [] then None
    else if r.blank(values[0]) then FirstNonBlank(r, values[1..])
    else Some(values[0])
  }

  /** From the first blank assignment on. */
  function FromFirstBlank(r: Rules, values: seq<string>): seq<string> {
    if values == [] then []
    else if r.blank(values[0]) then values
    else FromFirstBlank(r, values[1..])
  }

  /** The documented rule, and its one exception: a blank value of the process is not unset by
      a non-blank assignment, only by a blank one. */
  function Expected(r: Rules, process: Option<string>, values: seq<string>): Option<string> {
    if process.None? then FirstNonBlank(r, values)
    else if !r.blank(process.value) || FromFirstBlank(r, values) == [] then process
    else FirstNonBlank(r, FromFirstBlank(r, values))
  }

  lemma {:induction false} FirstNonBlankAppend(r: Rules, values: seq<string>, v: string)
    ensures FirstNonBlank(r, values + [v]) ==
            if FirstNonBlank(r, values).Some? then FirstNonBlank(r, values) else if r.blank(v) then None else Some(v)
    ensures FirstNonBlank(r, values).Some? ==> !r.blank(FirstNonBlank(r, values).value) && FirstNonBlank(r, values).value in values
    decreases |values|
  {
    if values != [] {
      assert (values + [v])[1..] == values[1..] + [v];
      FirstNonBlankAppend(r, values[1..], v);
    }
  }

  lemma {:induction false} FromFirstBlankAppend(r: Rules, values: seq<string>, v: string)
    ensures FromFirstBlank(r, values + [v]) ==
            if FromFirstBlank(r, values) != [] then FromFirstBlank(r, values) + [v] else if r.blank(v) then [v] else []
    decreases |values|
  {
    if values != [] {
      assert (values + [v])[1..] == values[1..] + [v];
      FromFirstBlankAppend(r, values[1..], v);
    } else {
      assert values + [v] == [v];
    }
  }

  lemma ExpectedStep(r: Rules, process: Option<string>, values: seq<string>, v: string)
    ensures Expected(r, process, values + [v]) == After(r, Expected(r, process, values), Some(v), false)
  {
    FirstNonBlankAppend(r, values, v);
    FromFirstBlankAppend(r, values, v);
    FirstNonBlankAppend(r, FromFirstBlank(r, values), v);
    if FromFirstBlank(r, values) == [] && r.blank(v) {
      assert FirstNonBlank(r, [v]) == None;
    }
  }

  /** Whatever files are loaded, in whatever number: each key ends as the rule says, and the
      tokenizer outputs end as they were. */
  lemma {:induction false} LayersResolve(r: Rules, env: Env, files: seq<File>, k: string)
    requires Layer(r, env, files).Loaded?
    ensures Lookup(Layer(r, env, files).env, k)
         == if k == "RAYON_NUM_THREADS" || k == "TOKENIZERS_PARALLELISM" then Lookup(env, k) else Expected(r, Lookup(env, k), Assigned(r, env, files, k))
    decreases |files|
  {
    hide Expected, After;
    if files == [] {
      assert Expected(r, Lookup(env, k), []) == Lookup(env, k) by { ExpectedNone(r, Lookup(env, k)); }
    } else {
      var n := |files| - 1;
      LayersResolve(r, env, files[..n], k);
      var before := Layer(r, env, files[..n]).env;
      LoadAt(r, before, files[n]);
      if !Disabled(r, before) && k in files[n] && files[n][k].Some? {
        ExpectedStep(r, Lookup(env, k), Assigned(r, env, files[..n], k), files[n][k].value);
      } else {
        assert Assigned(r, env, files, k) == Assigned(r, env, files[..n], k);
        NotAssigned(r, Lookup(before, k));
      }
    }
  }

  lemma NotAssigned(r: Rules, before: Option<string>)
    ensures After(r, before, None, false) == before
  {
  }

  lemma ExpectedNone(r: Rules, process: Option<string>)
    ensures Expected(r, process, []) == process
  {
  }

  /** A non-blank value the process came with is never changed or removed; a name it came
      without ends as the first non-blank assignment, or unset. */
  lemma FirstNonBlankWins(r: Rules, env: Env, files: seq<File>, k: string)
    requires Layer(r, env, files).Loaded? && k != "RAYON_NUM_THREADS" && k != "TOKENIZERS_PARALLELISM"
    ensures k in env && !r.blank(env[k]) ==> Lookup(Layer(r, env, files).env, k) == Some(env[k])
    ensures k !in env ==> Lookup(Layer(r, env, files).env, k) == FirstNonBlank(r, Assigned(r, env, files, k))
  {
    LayersResolve(r, env, files, k);
  }

  /** A name the process came without that the home secrets assign a non-blank value ends as that
      value, whatever the committed presets say; one they leave out ends as the presets say, unless
      the secrets switched files off. */
  lemma HomeSecretsWin(r: Rules, env: Env, presets: Option<File>, home: File, k: string)
    requires Layer(r, env, ModeFiles(presets, Some(home))).Loaded?
    requires k !in env && k != "RAYON_NUM_THREADS" && k != "TOKENIZERS_PARALLELISM"
    requires !("PYTHON_DOTENV_DISABLED" in env && r.disabling(env["PYTHON_DOTENV_DISABLED"]))
    ensures var after := Layer(r, env, ModeFiles(presets, Some(home))).env;
            && (k in home && home[k].Some? && !r.blank(home[k].value) ==> Lookup(after, k) == home[k])
            && (k !in home && presets.Some? && k in presets.value && presets.value[k].Some? && !r.blank(presets.value[k].value)
                && "PYTHON_DOTENV_DISABLED" !in home && "PYTHON_DOTENV_DISABLED" !in env ==>
                  Lookup(after, k) == presets.value[k])
            && (k !in home && (presets.None? || k !in presets.value) ==> k !in after)
  {
    var files := ModeFiles(presets, Some(home));
    assert files[..1] == [home] && [home][..0] == [] && files[..2] == files;
    assert Layer(r, env, []) == Loaded(env);
    assert Layer(r, env, [home]) == Load(r, env, home);
    LayersResolve(r, env, [home], "PYTHON_DOTENV_DISABLED");
    FirstNonBlankWins(r, env, files, k);
    var own := if k in home && home[k].Some? then [home[k].value] else [];
    assert Assigned(r, env, [home], k) == own;
    var later := files[1];
    assert Assigned(r, env, files, k) == own || (k in later && later[k].Some? && Assigned(r, env, files, k) == own + [later[k].value]);
  }

  /** The first blank assignment is the one at `b`. */
  predicate FirstBlankAt(r: Rules, values: seq<string>, b: int) {
    0 <= b < |values| && r.blank(values[b]) && forall j :: 0 <= j < b ==> !r.blank(values[j])
  }

  /** The first non-blank assignment from `b` on is the one at `j`. */
  predicate NextNonBlank(r: Rules, values: seq<string>, b: int, j: int) {
    0 <= b <= j < |values| && !r.blank(values[j]) && forall h :: b <= h < j ==> r.blank(values[h])
  }

  predicate AllBlankFrom(r: Rules, values: seq<string>, b: int) {
    forall j :: 0 <= b <= j < |values| ==> r.blank(values[j])
  }

  lemma {:induction false} FromFirstBlankIs(r: Rules, values: seq<string>)
    ensures forall b :: FirstBlankAt(r, values, b) ==> FromFirstBlank(r, values) == values[b..]
    ensures FromFirstBlank(r, values) != [] <==> exists b :: FirstBlankAt(r, values, b)
    decreases |values|
  {
    if values != [] {
      FromFirstBlankIs(r, values[1..]);
      if r.blank(values[0]) {
        assert FirstBlankAt(r, values, 0);
      } else {
        forall b | FirstBlankAt(r, values, b)
          ensures FromFirstBlank(r, values) == values[b..]
        {
          assert FirstBlankAt(r, values[1..], b - 1);
        }
        if FromFirstBlank(r, values[1..]) != [] {
          var b :| FirstBlankAt(r, values[1..], b);
          assert r.blank(values[b + 1]);
          assert FirstBlankAt(r, values, b + 1);
        }
      }
    }
  }

  lemma {:induction false} FirstNonBlankIs(r: Rules, values: seq<string>, b: nat)
    requires b <= |values|
    ensures forall j :: NextNonBlank(r, values, b, j) ==> FirstNonBlank(r, values[b..]) == Some(values[j])
    ensures FirstNonBlank(r, values[b..]).Some? ==> exists j :: NextNonBlank(r, values, b, j)
    ensures FirstNonBlank(r, values[b..]).None? <==> AllBlankFrom(r, values, b)
    decreases |values| - b
  {
    if b < |values| {
      FirstNonBlankIs(r, values, b + 1);
      assert values[b..][1..] == values[b + 1..];
      if !r.blank(values[b]) {
        assert NextNonBlank(r, values, b, b);
      } else {
        forall j | NextNonBlank(r, values, b, j)
          ensures FirstNonBlank(r, values[b..]) == Some(values[j])
        {
          assert NextNonBlank(r, values, b + 1, j);
        }
        if FirstNonBlank(r, values[b + 1..]).Some? {
          var j :| NextNonBlank(r, values, b + 1, j);
          assert NextNonBlank(r, values, b, j);
        }
      }
    }
  }

  /** "Blank means unset" holds of a blank process value exactly when some file assigns the key
      a blank, and either no non-blank assignment came before the first such, or the first
      non-blank one after it says the same as the first of all. */
  lemma BlankProcessValueIff(r: Rules, env: Env, files: seq<File>, k: string)
    requires Layer(r, env, files).Loaded? && k != "RAYON_NUM_THREADS" && k != "TOKENIZERS_PARALLELISM" && k in env && r.blank(env[k])
    ensures var values := Assigned(r, env, files, k);
            Lookup(Layer(r, env, files).env, k) == FirstNonBlank(r, values) <==>
            exists b :: FirstBlankAt(r, values, b) && (b == 0 || exists j :: NextNonBlank(r, values, b, j) && values[j] == values[0])
  {
    LayersResolve(r, env, files, k);
    BlankExpected(r, env[k], Assigned(r, env, files, k));
  }

  lemma BlankExpected(r: Rules, process: string, values: seq<string>)
    requires r.blank(process)
    ensures Expected(r, Some(process), values) == FirstNonBlank(r, values) <==>
            exists b :: FirstBlankAt(r, values, b) && (b == 0 || exists j :: NextNonBlank(r, values, b, j) && values[j] == values[0])
  {
    FromFirstBlankIs(r, values);
    FirstNonBlankIs(r, values, 0);
    assert values[0..] == values;
    if FromFirstBlank(r, values) != [] {
      var b :| FirstBlankAt(r, values, b);
      OneFirstBlank(r, values, b);
      FirstNonBlankIs(r, values, b);
      if b > 0 { assert NextNonBlank(r, values, 0, 0); }
    }
  }

  lemma OneFirstBlank(r: Rules, values: seq<string>, b: int)
    requires FirstBlankAt(r, values, b)
    ensures forall c :: FirstBlankAt(r, values, c) ==> c == b
  {
  }

  // ----- loading again ---------------------------------------------------------------------------------

  /** Loading a file and at once loading it again is loading it once: with only a home file,
      the mode loader's second pass changes nothing. */
  lemma ReloadIsIdle(r: Rules, env: Env, file: File)
    requires Load(r, env, file).Loaded?
    ensures Load(r, Load(r, env, file).env, file) == Load(r, env, file)
  {
    var once := Load(r, env, file).env;
    LoadAt(r, env, file);
    LoadAt(r, once, file);
    if !Disabled(r, env) {
      forall k
        ensures LoadedAt(r, once, file, false, k) == Lookup(once, k)
        ensures k in once ==> k in env || k in file
      {
        assert Lookup(once, k) == LoadedAt(r, env, file, false, k);
      }
      var twice := Load(r, once, file);
      assert twice.Loaded?;
      SameLookups(twice.env, once);
    }
  }

  lemma {:induction false} AssignedCovers(r: Rules, env: Env, files: seq<File>, i: nat, k: string)
    requires i < |files| && k in files[i] && files[i][k].Some?
    requires forall n :: 0 <= n < |files| ==> Layer(r, env, files[..n]).Loaded? && !Disabled(r, Layer(r, env, files[..n]).env)
    ensures files[i][k].value in Assigned(r, env, files, k)
    decreases |files|
  {
    var n := |files| - 1;
    assert Layer(r, env, files[..n]).Loaded?;
    if i < n {
      forall m | 0 <= m < n
        ensures Layer(r, env, files[..n][..m]).Loaded? && !Disabled(r, Layer(r, env, files[..n][..m]).env)
      {
        assert files[..n][..m] == files[..m];
      }
      AssignedCovers(r, env, files[..n], i, k);
    }
  }

  /** A file can switch every later file off. */
  lemma DisabledForever(r: Rules, env: Env, file: File)
    requires Disabled(r, env) && Load(r, env, file).Loaded?
    ensures Load(r, env, file) == Loaded(env)
  {
  }

  /** So files that are still on at the end were on all along. */
  lemma {:induction false} ActiveThroughout(r: Rules, env: Env, files: seq<File>)
    requires Layer(r, env, files).Loaded? && !Disabled(r, Layer(r, env, files).env)
    ensures forall n :: 0 <= n < |files| ==> Layer(r, env, files[..n]).Loaded? && !Disabled(r, Layer(r, env, files[..n]).env)
    decreases |files|
  {
    hide Load, Disabled;
    if files != [] {
      var rest := files[..|files| - 1];
      var before := Layer(r, env, rest).env;
      if Disabled(r, before) {
        DisabledForever(r, before, files[|files| - 1]);
      }
      ActiveThroughout(r, env, rest);
      forall n | 0 <= n < |files|
        ensures Layer(r, env, files[..n]).Loaded? && !Disabled(r, Layer(r, env, files[..n]).env)
      {
        if n < |rest| { assert rest[..n] == files[..n]; }
      }
    }
  }

  /** What was loaded has no obsolete name, so loading any of it again is not rejected. */
  lemma {:induction false} LayersClean(r: Rules, env: Env, files: seq<File>, i: nat)
    requires Layer(r, env, files).Loaded? && i < |files|
    ensures Load(r, Layer(r, env, files).env, files[i]).Loaded?
    decreases |files|
  {
    var n := |files| - 1;
    var before := Layer(r, env, files[..n]).env;
    if i < n {
      LayersClean(r, env, files[..n], i);
    }
    CleanStep(r, before, files[n], files[i], i == n);
  }

  lemma CleanStep(r: Rules, before: Env, last: File, file: File, same: bool)
    requires Load(r, before, last).Loaded? && if same then file == last else Load(r, before, file).Loaded?
    ensures Load(r, Load(r, before, last).env, file).Loaded?
  {
    var after := Load(r, before, last).env;
    if !Disabled(r, before) {
      assert forall k :: k in after ==> k in before || k in last;
      if Disabled(r, after) {
      } else if !same {
        assert forall name :: !(name in r.obsolete && name in file);
      }
    }
  }

  /** One assignment made again, after a history that contains it. */
  lemma RepeatedAssignment(r: Rules, process: Option<string>, values: seq<string>, v: string)
    requires v in values
    ensures After(r, Expected(r, process, values), Some(v), false) != Expected(r, process, values) <==>
            && process.Some? && r.blank(process.value) && !r.blank(v)
            && exists b :: FirstBlankAt(r, values, b) && AllBlankFrom(r, values, b)
  {
    var i :| 0 <= i < |values| && values[i] == v;
    FromFirstBlankIs(r, values);
    FirstNonBlankIs(r, values, 0);
    assert values[0..] == values;
    if FromFirstBlank(r, values) != [] {
      var b :| FirstBlankAt(r, values, b);
      OneFirstBlank(r, values, b);
      FirstNonBlankIs(r, values, b);
    } else {
      NoFirstBlank(r, values, |values|);
    }
    FirstNonBlankAppend(r, values, "");
    FirstNonBlankAppend(r, FromFirstBlank(r, values), "");
  }

  lemma {:induction false} NoFirstBlank(r: Rules, values: seq<string>, n: nat)
    requires FromFirstBlank(r, values) == [] && n <= |values|
    ensures forall j :: 0 <= j < n ==> !r.blank(values[j])
    decreases n
  {
    if n > 0 {
      NoFirstBlank(r, values, n - 1);
      FromFirstBlankIs(r, values);
      assert r.blank(values[n - 1]) ==> FirstBlankAt(r, values, n - 1);
    }
  }

  /** Loading any of the files again, after all of them, is never rejected, and changes a key
      exactly when files are not switched off, the process came with a blank for the key, the
      file assigns it a non-blank value, and the assignments of all files to it are non-blank up
      to some point and blank from there on. */
  lemma ReloadChangesIff(r: Rules, env: Env, files: seq<File>, i: nat, k: string)
    requires i < |files| && Layer(r, env, files).Loaded?
    ensures var after, values := Layer(r, env, files).env, Assigned(r, env, files, k);
            && Load(r, after, files[i]).Loaded?
            && (Lookup(Load(r, after, files[i]).env, k) != Lookup(after, k) <==>
                  && k !in TOKENIZER_OUTPUTS && !Disabled(r, after)
                  && k in env && r.blank(env[k])
                  && k in files[i] && files[i][k].Some? && !r.blank(files[i][k].value)
                  && exists b :: FirstBlankAt(r, values, b) && AllBlankFrom(r, values, b))
  {
    hide Load, Expected, After, FirstBlankAt, AllBlankFrom;
    var after := Layer(r, env, files).env;
    LayersClean(r, env, files, i);
    LoadAt(r, after, files[i]);
    if !Disabled(r, after) && k !in TOKENIZER_OUTPUTS && k in files[i] {
      LayersResolve(r, env, files, k);
      if files[i][k].Some? {
        ActiveThroughout(r, env, files);
        AssignedCovers(r, env, files, i, k);
        RepeatedAssignment(r, Lookup(env, k), Assigned(r, env, files, k), files[i][k].value);
      } else {
        NotAssigned(r, Lookup(after, k));
      }
    }
  }

  /** If the process came with no blank values, loading any of the files again changes nothing,
      whatever was loaded in between. */
  lemma ReloadSettled(r: Rules, env: Env, files: seq<File>, i: nat)
    requires i < |files| && Layer(r, env, files).Loaded?
    requires forall k :: k in env && k !in TOKENIZER_OUTPUTS ==> !r.blank(env[k])
    ensures Load(r, Layer(r, env, files).env, files[i]) == Layer(r, env, files)
  {
    hide Load, Disabled;
    LayersClean(r, env, files, i);
    var after := Layer(r, env, files).env;
    var again := Load(r, after, files[i]).env;
    forall k
      ensures Lookup(again, k) == Lookup(after, k)
    {
      ReloadChangesIff(r, env, files, i, k);
    }
    SameLookups(again, after);
  }

  /** A blank value in the process blocks the first file's value, the second file's blank unsets
      it, and loading the first file again then sets it. */
  lemma BlankProcessValueShows()
    ensures var r := Rules((s: string) => s == "", (s: string) => s == "1", {});
            var first: File, second: File := map["HF_HOME" := Some("cache")], map["HF_HOME" := Some("")];
            var env: Env := map["HF_HOME" := ""];
            && Layer(r, env, [first]) == Loaded(env)
            && Layer(r, env, [first, second]) == Loaded(map[])
            && Layer(r, env, [first, second, first]) == Loaded(map["HF_HOME" := "cache"])
  {
    var r := Rules((s: string) => s == "", (s: string) => s == "1", {});
    var first: File, second: File := map["HF_HOME" := Some("cache")], map["HF_HOME" := Some("")];
    var env: Env := map["HF_HOME" := ""];
    assert Load(r, env, first) == Loaded(env);
    assert Load(r, env, second).env == map[];
    assert Load(r, map[], first).env == map["HF_HOME" := "cache"];
    assert [first][..0] == [] && [first, second][..1] == [first] && [first, second, first][..2] == [first, second];
    assert Layer(r, env, []) == Loaded(env);
  }
}
