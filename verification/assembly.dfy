/** The engine-independent skeleton of the three front ends. `get_properties`
    visits the kinds in a fixed order and appends one entry per selected
    kind; `get_parameter_dict` puts the structures glob, the interaction and
    the relaxation into a fresh document and adds the properties when there
    are any. Every builder may raise, and nothing catches, so the first
    failure in evaluation order aborts the whole document. */
module Assembly {
  import opened Results
  import opened Json
  import opened Forms

  /** The kinds of `kinds` that `sel` picks, in their order. */
  function Chosen(kinds: seq<Kind>, sel: Kind -> bool): (r: seq<Kind>)
    ensures |r| <= |kinds|
  {
    if |kinds| == 0 then []
    else if sel(kinds[0]) then [kinds[0]] + Chosen(kinds[1..], sel)
    else Chosen(kinds[1..], sel)
  }

  /** A kind is chosen exactly when it is visited and picked. */
  lemma {:induction false} ChosenMembers(kinds: seq<Kind>, sel: Kind -> bool, k: Kind)
    ensures k in Chosen(kinds, sel) <==> k in kinds && sel(k)
    decreases |kinds|
  {
    if |kinds| > 0 {
      ChosenMembers(kinds[1..], sel, k);
      assert kinds == [kinds[0]] + kinds[1..];
    }
  }

  /** `[k]` when `b` holds. */
  function Pick(b: bool, k: Kind): seq<Kind> {
    if b then [k] else []
  }

  /** The property list and the files written while building it. */
  datatype Collected = Collected(items: seq<Json>, files: seq<Emitted>)

  /** The files the builders of `ks` write, one builder after the other. */
  function FilesOf(ks: seq<Kind>, build: Kind -> Result<Built>): seq<Emitted>
    requires forall i :: 0 <= i < |ks| ==> build(ks[i]).Success?
  {
    if |ks| == 0 then [] else build(ks[0]).value.files + FilesOf(ks[1..], build)
  }

  /** `get_properties`: one entry per chosen kind, in the visiting order;
      the first chosen kind whose builder fails decides the error. */
  function Collect(kinds: seq<Kind>, sel: Kind -> bool, build: Kind -> Result<Built>): (r: Result<Collected>)
    ensures r.Success? <==> forall k :: k in Chosen(kinds, sel) ==> build(k).Success?
    ensures r.Success? ==> |r.value.items| == |Chosen(kinds, sel)|
    ensures r.Success? ==> forall i :: 0 <= i < |r.value.items| ==>
      r.value.items[i] == Object(build(Chosen(kinds, sel)[i]).value.fields)
    ensures r.Success? ==> r.value.files == FilesOf(Chosen(kinds, sel), build)
  {
    if |kinds| == 0 then Success(Collected([], []))
    else
      var rest := Collect(kinds[1..], sel, build);
      var ch := Chosen(kinds, sel);
      if !sel(kinds[0]) then rest
      else
        assert ch == [kinds[0]] + Chosen(kinds[1..], sel);
        match build(kinds[0])
        case Failure(e) => Failure(e)
        case Success(b) =>
          if rest.Failure? then Failure(rest.error)
          else
            var items := [Object(b.fields)] + rest.value.items;
            assert forall k :: k in ch ==> build(k).Success?;
            assert forall j :: 0 <= j < |items| ==> items[j] == Object(build(ch[j]).value.fields) by {
              forall j | 0 <= j < |items|
                ensures items[j] == Object(build(ch[j]).value.fields)
              {
                if j > 0 {
                  assert items[j] == rest.value.items[j - 1];
                }
              }
            }
            Success(Collected(items, b.files + rest.value.files))
  }

  /** Entry `i` of `ks` is the first whose builder fails. */
  ghost predicate FirstFailure(ks: seq<Kind>, build: Kind -> Result<Built>, i: int) {
    0 <= i < |ks| && build(ks[i]).Failure? && forall j :: 0 <= j < i ==> build(ks[j]).Success?
  }

  /** The error of a failed `get_properties` is that of the first chosen
      kind whose builder fails. */
  lemma {:induction false} CollectError(kinds: seq<Kind>, sel: Kind -> bool, build: Kind -> Result<Built>)
    requires Collect(kinds, sel, build).Failure?
    ensures exists i :: (FirstFailure(Chosen(kinds, sel), build, i)
      && Collect(kinds, sel, build).error == build(Chosen(kinds, sel)[i]).error)
    decreases |kinds|
  {
    var ch := Chosen(kinds, sel);
    if sel(kinds[0]) {
      assert ch == [kinds[0]] + Chosen(kinds[1..], sel);
      if build(kinds[0]).Failure? {
        assert FirstFailure(ch, build, 0);
      } else {
        CollectError(kinds[1..], sel, build);
        var i :| FirstFailure(Chosen(kinds[1..], sel), build, i)
          && Collect(kinds[1..], sel, build).error == build(Chosen(kinds[1..], sel)[i]).error;
        assert FirstFailure(ch, build, i + 1);
      }
    } else {
      CollectError(kinds[1..], sel, build);
    }
  }

  /** The error of the first chosen kind whose builder fails, if any. */
  function FirstError(kinds: seq<Kind>, sel: Kind -> bool, build: Kind -> Result<Built>): Option<Error> {
    if |kinds| == 0 then None
    else Stage(kinds[0], sel, build, FirstError(kinds[1..], sel, build))
  }

  /** Kind `k` decides the error when it is chosen and its builder fails;
      otherwise the later kinds do. */
  function Stage(k: Kind, sel: Kind -> bool, build: Kind -> Result<Built>, later: Option<Error>): Option<Error> {
    if sel(k) && build(k).Failure? then Some(build(k).error) else later
  }

  /** `get_properties` fails exactly when some chosen builder fails, with
      the error of the first one in visiting order. */
  lemma {:induction false} CollectFirstError(kinds: seq<Kind>, sel: Kind -> bool, build: Kind -> Result<Built>)
    ensures Collect(kinds, sel, build).Failure? <==> FirstError(kinds, sel, build).Some?
    ensures Collect(kinds, sel, build).Failure? ==>
      Collect(kinds, sel, build).error == FirstError(kinds, sel, build).value
    decreases |kinds|
  {
    if |kinds| > 0 {
      CollectFirstError(kinds[1..], sel, build);
    }
  }

  /** The first error over the fixed kind order, eos first. */
  lemma FirstErrorAllKinds(sel: Kind -> bool, build: Kind -> Result<Built>)
    ensures FirstError(AllKinds, sel, build) ==
      Stage(Eos, sel, build, Stage(Elastic, sel, build, Stage(Surface, sel, build,
      Stage(Interstitial, sel, build, Stage(Vacancy, sel, build, Stage(Gamma, sel, build,
      Stage(Phonon, sel, build, None)))))))
  {
    var ks := AllKinds;
    assert ks[6..][1..] == [];
    assert ks[5..][1..] == ks[6..];
    assert ks[4..][1..] == ks[5..];
    assert ks[3..][1..] == ks[4..];
    assert ks[2..][1..] == ks[3..];
    assert ks[1..][1..] == ks[2..];
    var e6 := FirstError(ks[6..], sel, build);
    var e5 := FirstError(ks[5..], sel, build);
    var e4 := FirstError(ks[4..], sel, build);
    var e3 := FirstError(ks[3..], sel, build);
    var e2 := FirstError(ks[2..], sel, build);
    var e1 := FirstError(ks[1..], sel, build);
    assert e5 == Stage(Gamma, sel, build, e6);
    assert e4 == Stage(Vacancy, sel, build, e5);
    assert e3 == Stage(Interstitial, sel, build, e4);
    assert e2 == Stage(Surface, sel, build, e3);
    assert e1 == Stage(Elastic, sel, build, e2);
  }

  lemma {:induction false} ChosenAppend(a: seq<Kind>, b: seq<Kind>, sel: Kind -> bool)
    ensures Chosen(a + b, sel) == Chosen(a, sel) + Chosen(b, sel)
    decreases |a|
  {
    if |a| > 0 {
      assert (a + b)[1..] == a[1..] + b;
      ChosenAppend(a[1..], b, sel);
    } else {
      assert a + b == b;
    }
  }

  /** Visiting the fixed kind order picks exactly the kinds whose switch is
      on, eos first and phonon last, each at most once. */
  lemma ChosenAllKinds(sel: Kind -> bool)
    ensures Chosen(AllKinds, sel) ==
      Pick(sel(Eos), Eos) + (Pick(sel(Elastic), Elastic) + (Pick(sel(Surface), Surface)
      + (Pick(sel(Interstitial), Interstitial) + (Pick(sel(Vacancy), Vacancy)
      + (Pick(sel(Gamma), Gamma) + Pick(sel(Phonon), Phonon))))))
  {
    var ks := AllKinds;
    var p0, p1, p2, p3 := Pick(sel(Eos), Eos), Pick(sel(Elastic), Elastic), Pick(sel(Surface), Surface), Pick(sel(Interstitial), Interstitial);
    var p4, p5, p6 := Pick(sel(Vacancy), Vacancy), Pick(sel(Gamma), Gamma), Pick(sel(Phonon), Phonon);
    ChosenStep(ks[6..], sel);
    assert ks[6..][1..] == [];
    var c6 := Chosen(ks[6..], sel);
    assert c6 == p6;
    ChosenStep(ks[5..], sel);
    assert ks[5..][1..] == ks[6..];
    var c5 := Chosen(ks[5..], sel);
    assert c5 == p5 + p6;
    ChosenStep(ks[4..], sel);
    assert ks[4..][1..] == ks[5..];
    var c4 := Chosen(ks[4..], sel);
    assert c4 == p4 + c5;
    ChosenStep(ks[3..], sel);
    assert ks[3..][1..] == ks[4..];
    var c3 := Chosen(ks[3..], sel);
    assert c3 == p3 + c4;
    ChosenStep(ks[2..], sel);
    assert ks[2..][1..] == ks[3..];
    var c2 := Chosen(ks[2..], sel);
    assert c2 == p2 + c3;
    ChosenStep(ks[1..], sel);
    assert ks[1..][1..] == ks[2..];
    var c1 := Chosen(ks[1..], sel);
    assert c1 == p1 + c2;
    ChosenStep(ks, sel);
    assert Chosen(ks, sel) == p0 + c1;
  }

  lemma ChosenStep(ks: seq<Kind>, sel: Kind -> bool)
    requires |ks| > 0
    ensures Chosen(ks, sel) == Pick(sel(ks[0]), ks[0]) + Chosen(ks[1..], sel)
  {
  }

  /** The glob under which the staged configurations are found. */
  const StructuresGlob: string := "returns/conf.*"

  /** `get_parameter_dict`, given what the three builders return.
      `get_properties` runs twice, once for the emptiness test and once for
      the value, so its files are written twice when the list is non-empty. */
  function ParameterDict(interaction: Result<Built>, relaxation: Result<Built>, properties: Result<Collected>): (r: Result<Built>)
    ensures r.Success? <==> interaction.Success? && relaxation.Success? && properties.Success?
    ensures r.Failure? ==> r.error == (if interaction.Failure? then interaction.error
                                      else if relaxation.Failure? then relaxation.error
                                      else properties.error)
    ensures r.Success? ==> (Keys(r.value.fields) ==
      ["structures", "interaction", "relaxation"] + (if |properties.value.items| > 0 then ["properties"] else []))
    ensures r.Success? ==> Get(r.value.fields, "structures") == Some(Array([Str(StructuresGlob)]))
    ensures r.Success? ==> Get(r.value.fields, "interaction") == Some(Object(interaction.value.fields))
    ensures r.Success? ==> Get(r.value.fields, "relaxation") == Some(Object(relaxation.value.fields))
    ensures r.Success? ==> (Get(r.value.fields, "properties") ==
      if |properties.value.items| > 0 then Some(Array(properties.value.items)) else None)
    ensures r.Success? ==> (r.value.files ==
      interaction.value.files + relaxation.value.files + properties.value.files
      + (if |properties.value.items| > 0 then properties.value.files else []))
  {
    var inter :- interaction;
    var relax :- relaxation;
    var props :- properties;
    var doc := Head(inter, relax);
    Success(Built(WithProperties(doc, props.items),
                  inter.files + relax.files + props.files + (if |props.items| > 0 then props.files else [])))
  }

  /** The three keys every document has, in their order. */
  function Head(inter: Built, relax: Built): (d: seq<Field>)
    ensures Keys(d) == ["structures", "interaction", "relaxation"]
    ensures Get(d, "structures") == Some(Array([Str(StructuresGlob)]))
    ensures Get(d, "interaction") == Some(Object(inter.fields))
    ensures Get(d, "relaxation") == Some(Object(relax.fields))
  {
    var doc := [("structures", Array([Str(StructuresGlob)])),
                ("interaction", Object(inter.fields)),
                ("relaxation", Object(relax.fields))];
    GetAt(doc, 1);
    GetAt(doc, 2);
    doc
  }

  /** `if properties: d["properties"] = properties` on the head of a
      document. */
  function WithProperties(d: seq<Field>, items: seq<Json>): (r: seq<Field>)
    requires Keys(d) == ["structures", "interaction", "relaxation"]
    ensures Keys(r) == Keys(d) + (if |items| > 0 then ["properties"] else [])
    ensures Get(r, "structures") == Get(d, "structures")
    ensures Get(r, "interaction") == Get(d, "interaction")
    ensures Get(r, "relaxation") == Get(d, "relaxation")
    ensures Get(r, "properties") == if |items| > 0 then Some(Array(items)) else None
  {
    GetNone(d, "properties");
    PutOpt(d, "properties", if |items| > 0 then Some(Array(items)) else None)
  }


  /** The working directory's files after a sequence of writes; a later
      write to a name replaces an earlier one. */
  function Apply(dir: map<string, string>, writes: seq<Emitted>): (r: map<string, string>)
    ensures forall e :: e in writes ==> e.name in r
    ensures forall n :: n in dir ==> n in r
    decreases |writes|
  {
    if |writes| == 0 then dir
    else
      var last := writes[|writes| - 1];
      Apply(dir, writes[..|writes| - 1])[last.name := last.text]
  }

  lemma {:induction false} ApplyAppend(dir: map<string, string>, a: seq<Emitted>, b: seq<Emitted>)
    ensures Apply(dir, a + b) == Apply(Apply(dir, a), b)
    decreases |b|
  {
    if |b| == 0 {
      assert a + b == a;
    } else {
      assert (a + b)[..|a + b| - 1] == a + b[..|b| - 1];
      ApplyAppend(dir, a, b[..|b| - 1]);
    }
  }

  /** A write to `n` made before `writes` is hidden by the same write made
      after them. */
  lemma {:induction false} ApplyOverwrite(dir: map<string, string>, writes: seq<Emitted>, n: string, t: string)
    ensures Apply(dir[n := t], writes)[n := t] == Apply(dir, writes)[n := t]
    decreases |writes|
  {
    if |writes| > 0 {
      var init := writes[..|writes| - 1];
      var last := writes[|writes| - 1];
      ApplyOverwrite(dir, init, n, t);
      if last.name == n {
        assert Apply(dir[n := t], writes)[n := t] == Apply(dir[n := t], init)[n := t];
        assert Apply(dir, writes)[n := t] == Apply(dir, init)[n := t];
      } else {
        var m1 := Apply(dir[n := t], init);
        var m2 := Apply(dir, init);
        assert m1[n := t] == m2[n := t];
        assert m1[last.name := last.text][n := t] == m1[n := t][last.name := last.text];
        assert m2[last.name := last.text][n := t] == m2[n := t][last.name := last.text];
      }
    }
  }

  /** Repeating a sequence of writes leaves the directory as one run does. */
  lemma {:induction false} ApplyTwice(dir: map<string, string>, writes: seq<Emitted>)
    ensures Apply(Apply(dir, writes), writes) == Apply(dir, writes)
    decreases |writes|
  {
    if |writes| > 0 {
      var init := writes[..|writes| - 1];
      var last := writes[|writes| - 1];
      var m := Apply(dir, init);
      ApplyTwice(dir, init);
      ApplyOverwrite(m, init, last.name, last.text);
    }
  }

  /** Building the properties twice writes the same directory as building
      them once. */
  lemma ParameterDictWrites(dir: map<string, string>, interaction: Result<Built>, relaxation: Result<Built>, properties: Result<Collected>)
    requires ParameterDict(interaction, relaxation, properties).Success?
    ensures Apply(dir, ParameterDict(interaction, relaxation, properties).value.files)
      == Apply(dir, interaction.value.files + relaxation.value.files + properties.value.files)
  {
    var a := interaction.value.files + relaxation.value.files;
    var b := properties.value.files;
    if |properties.value.items| > 0 {
      assert a + b + b == (a + b) + b;
      ApplyAppend(dir, a + b, b);
      ApplyAppend(dir, a, b);
      ApplyTwice(Apply(dir, a), b);
    } else {
      assert a + b + [] == a + b;
    }
  }
}
