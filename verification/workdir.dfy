/** The working directory a runner prepares before submission: one
    `returns/conf.NNNNNN/POSCAR` per uploaded configuration, and the list of
    parameter documents, taken either from uploaded parameter files with
    their `structures` entry rewritten or from the form. */
module Workdir {
  import opened Results
  import opened Json
  import Decimal
  import Forms
  import Assembly
  import GlobalConfig
  import Vasp

  /** `shutil.copy(source, target)`, with the target relative to the working
      directory. */
  datatype Copy = Copy(source: string, target: string)

  const ConfPrefix: string := "returns/conf."

  /** `returns_dir / ("conf.%06d" % i)`. */
  function ConfDir(i: nat): (d: string)
    ensures |d| >= |ConfPrefix| + 6
  {
    Decimal.PaddedLength(i, 6);
    ConfPrefix + Decimal.ZeroPadded(i, 6)
  }

  /** The copies the staging loop performs, one per configuration, in the
      upload order. */
  function StagedCopies(configs: seq<string>): seq<Copy> {
    seq(|configs|, i requires 0 <= i < |configs| => Copy(configs[i], ConfDir(i) + "/POSCAR"))
  }

  /** The staging loop: the counter starts at 0 and goes up by one per
      configuration. */
  method StageConfigurations(configs: seq<string>) returns (copies: seq<Copy>)
    ensures |copies| == |configs|
    ensures forall i :: 0 <= i < |configs| ==> copies[i] == Copy(configs[i], ConfDir(i) + "/POSCAR")
  {
    copies := [];
    var count := 0;
    for j := 0 to |configs|
      invariant count == j == |copies|
      invariant forall i :: 0 <= i < j ==> copies[i] == Copy(configs[i], ConfDir(i) + "/POSCAR")
    {
      copies := copies + [Copy(configs[j], ConfDir(count) + "/POSCAR")];
      count := count + 1;
    }
  }

  /** Python's `glob` for `returns/conf.*`: the fixed prefix, then any
      text without a slash. */
  predicate MatchesGlob(path: string) {
    |path| >= |ConfPrefix| && path[..|ConfPrefix|] == ConfPrefix && '/' !in path[|ConfPrefix|..]
  }

  /** Every staged directory is found by the structures glob that the
      parameter documents name. */
  lemma ConfDirMatchesGlob(i: nat)
    ensures MatchesGlob(ConfDir(i))
    ensures Assembly.StructuresGlob == ConfPrefix + "*"
  {
    var d := ConfDir(i);
    var digits := Decimal.ZeroPadded(i, 6);
    assert d[|ConfPrefix|..] == digits;
  }

  /** Distinct counters give distinct directories: no configuration
      overwrites another. */
  lemma ConfDirInjective(i: nat, j: nat)
    ensures ConfDir(i) == ConfDir(j) <==> i == j
  {
    if ConfDir(i) == ConfDir(j) {
      var a, b := ConfDir(i), ConfDir(j);
      assert a[|ConfPrefix|..] == Decimal.ZeroPadded(i, 6);
      assert b[|ConfPrefix|..] == Decimal.ZeroPadded(j, 6);
      Decimal.PaddedRoundTrip(i, 6);
      Decimal.PaddedRoundTrip(j, 6);
    }
  }

  /** The directory name has exactly six digits exactly when the counter is
      below one million; larger counters widen it. */
  lemma ConfDirWidth(i: nat)
    ensures |ConfDir(i)| == |ConfPrefix| + 6 <==> i < 1000000
  {
    Decimal.PaddedLength(i, 6);
    assert Decimal.Pow10(6) == 1000000;
  }

  /** `j["structures"] = ["returns/conf.*"]` on a loaded parameter file.
      Subscripting anything but an object with a text key raises
      TypeError. */
  function Rewrite(j: Json): (r: Result<Json>)
    ensures r.Failure? <==> !j.Object?
    ensures r.Failure? ==> r.error == NotAnObject
    ensures r.Success? ==> r.value.Object?
  {
    if j.Object? then Success(Object(Put(j.fields, "structures", StructuresValue)))
    else Failure(NotAnObject)
  }

  const StructuresValue: Json := Array([Str(Assembly.StructuresGlob)])

  /** The rewrite sets `structures` to the glob, keeps every other key and
      its value, keeps the key order when `structures` was there and
      otherwise appends it. */
  lemma RewriteSpec(j: Json)
    requires j.Object?
    ensures Get(Rewrite(j).value.fields, "structures") == Some(StructuresValue)
    ensures forall k :: k != "structures" ==> Get(Rewrite(j).value.fields, k) == Get(j.fields, k)
    ensures "structures" in Keys(j.fields) ==> Keys(Rewrite(j).value.fields) == Keys(j.fields)
    ensures "structures" !in Keys(j.fields) ==> Keys(Rewrite(j).value.fields) == Keys(j.fields) + ["structures"]
  {
    KeysAppend(j.fields, [("structures", StructuresValue)]);
  }

  /** Rewriting a rewritten file changes nothing. */
  lemma RewriteIdempotent(j: Json)
    requires j.Object?
    ensures Rewrite(Rewrite(j).value) == Rewrite(j)
  {
    PutTwice(j.fields, "structures", StructuresValue);
  }

  /** A document the form builders produced already names the glob, so the
      rewrite leaves it as it is. */
  lemma GeneratedNeedsNoRewrite(interaction: Result<Forms.Built>, relaxation: Result<Forms.Built>, properties: Result<Assembly.Collected>)
    requires Assembly.ParameterDict(interaction, relaxation, properties).Success?
    ensures Rewrite(Object(Assembly.ParameterDict(interaction, relaxation, properties).value.fields))
      == Success(Object(Assembly.ParameterDict(interaction, relaxation, properties).value.fields))
  {
    var f := Assembly.ParameterDict(interaction, relaxation, properties).value.fields;
    PutSame(f, "structures", StructuresValue);
  }

  /** All uploaded parameter files, rewritten in order; the first file that
      is not an object aborts the run. */
  function RewriteAll(files: seq<Json>): (r: Result<seq<Json>>)
    ensures r.Success? <==> forall i :: 0 <= i < |files| ==> files[i].Object?
    ensures r.Success? ==> |r.value| == |files|
    ensures r.Success? ==> forall i :: 0 <= i < |files| ==> r.value[i] == Rewrite(files[i]).value
  {
    if |files| == 0 then Success([])
    else
      var head :- Rewrite(files[0]);
      var rest :- RewriteAll(files[1..]);
      assert forall i :: 1 <= i < |files| ==> files[i] == files[1..][i - 1];
      Success([head] + rest)
  }

  /** What the runner hands to the workflow submission, together with the
      input files the form's builders wrote into the working directory
      (none when parameter files are uploaded, since the builders are then
      never called). */
  datatype Submission = Submission(parameterDicts: seq<Json>, config: seq<Field>, copies: seq<Copy>,
                                   written: seq<Forms.Emitted>)

  /** The runner up to the submission: stage the configurations, build the
      global configuration, then take the parameter documents from the
      uploaded files when there are any and from the form otherwise. The
      global configuration is given as `config`, the result of
      `GlobalConfig.Config`, and the form's document as `built`, the result
      of that front end's `get_parameter_dict`. */
  function Run(config: Result<seq<Field>>, configs: seq<string>,
               parameterFiles: seq<Json>, built: Result<Forms.Built>): Result<Submission>
  {
    var c :- config;
    if |parameterFiles| > 0 then
      var dicts :- RewriteAll(parameterFiles);
      Success(Submission(dicts, c, StagedCopies(configs), []))
    else
      var form :- built;
      Success(Submission([Object(form.fields)], c, StagedCopies(configs), form.files))
  }

  /** The run fails on the global configuration first; after that, with
      parameter files it fails exactly when one of them is not an object,
      and without them exactly when the form's document fails, with that
      document's error. */
  lemma RunFailure(config: Result<seq<Field>>, configs: seq<string>,
                   parameterFiles: seq<Json>, built: Result<Forms.Built>)
    ensures config.Failure? ==> Run(config, configs, parameterFiles, built) == Failure(config.error)
    ensures config.Success? && |parameterFiles| > 0 ==>
      (Run(config, configs, parameterFiles, built).Success? <==> forall i :: 0 <= i < |parameterFiles| ==> parameterFiles[i].Object?)
    ensures config.Success? && |parameterFiles| > 0 && Run(config, configs, parameterFiles, built).Failure? ==>
      Run(config, configs, parameterFiles, built).error == NotAnObject
    ensures config.Success? && |parameterFiles| == 0 ==>
      Run(config, configs, parameterFiles, built) ==
        (if built.Failure? then Failure(built.error)
         else Success(Submission([Object(built.value.fields)], config.value, StagedCopies(configs), built.value.files)))
  {
    if config.Success? && |parameterFiles| > 0 && !RewriteAll(parameterFiles).Success? {
      RewriteAllError(parameterFiles);
    }
  }

  /** A failed rewrite of the parameter files is always the TypeError of a
      file that is not an object. */
  lemma {:induction false} RewriteAllError(files: seq<Json>)
    requires RewriteAll(files).Failure?
    ensures RewriteAll(files).error == NotAnObject
    decreases |files|
  {
    if Rewrite(files[0]).Success? {
      RewriteAllError(files[1..]);
    }
  }

  /** With parameter files the form's document is never consulted: the run
      is the same whatever the builders would produce. */
  lemma ParameterFilesWin(config: Result<seq<Field>>, configs: seq<string>,
                          parameterFiles: seq<Json>, built: Result<Forms.Built>, other: Result<Forms.Built>)
    requires |parameterFiles| > 0
    ensures Run(config, configs, parameterFiles, built) == Run(config, configs, parameterFiles, other)
  {
  }

  /** A successful run submits one document per parameter file, each with
      the structures glob, or the single form document, together with the
      global configuration; the configurations are staged in upload order. */
  lemma RunSpec(config: Result<seq<Field>>, configs: seq<string>,
                parameterFiles: seq<Json>, built: Result<Forms.Built>)
    requires Run(config, configs, parameterFiles, built).Success?
    ensures var sub := Run(config, configs, parameterFiles, built).value;
      && sub.config == config.value
      && |sub.parameterDicts| == (if |parameterFiles| > 0 then |parameterFiles| else 1)
      && (forall i :: 0 <= i < |sub.parameterDicts| ==> sub.parameterDicts[i].Object?)
      && (|parameterFiles| > 0 ==> forall i :: 0 <= i < |sub.parameterDicts| ==>
            Get(sub.parameterDicts[i].fields, "structures") == Some(StructuresValue))
      && |sub.copies| == |configs|
      && (forall i :: 0 <= i < |configs| ==> sub.copies[i] == Copy(configs[i], ConfDir(i) + "/POSCAR"))
      && sub.written == (if |parameterFiles| > 0 then [] else built.value.files)
  {
    var sub := Run(config, configs, parameterFiles, built).value;
    if |parameterFiles| > 0 {
      forall i | 0 <= i < |sub.parameterDicts|
        ensures Get(sub.parameterDicts[i].fields, "structures") == Some(StructuresValue)
      {
        RewriteSpec(parameterFiles[i]);
      }
    }
  }

  /** The VASP runner without parameter files, fed by the real global
      configuration and the real form document: it fails only on a project
      id that `int()` rejects, and otherwise submits the form document and
      the input files its builders wrote. */
  lemma VaspFormRun(s: GlobalConfig.Settings, configs: seq<string>, o: Vasp.Options)
    ensures var run := Run(GlobalConfig.Config(GlobalConfig.Vasp, s), configs, [], Vasp.ParameterDict(o));
      && (run.Failure? <==> !Decimal.Accepted(Decimal.Strip(s.projectId)))
      && (run.Failure? ==> run.error == NotAnInteger(s.projectId))
      && (run.Success? ==>
            && run.value.parameterDicts == [Object(Vasp.ParameterDict(o).value.fields)]
            && run.value.written == Vasp.ParameterDict(o).value.files
            && run.value.config == GlobalConfig.Config(GlobalConfig.Vasp, s).value)
  {
    GlobalConfig.ConfigFailure(GlobalConfig.Vasp, s);
    Vasp.ParameterDictShape(o);
    RunFailure(GlobalConfig.Config(GlobalConfig.Vasp, s), configs, [], Vasp.ParameterDict(o));
  }
}
