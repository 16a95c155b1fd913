/** The LAMMPS front end: the interaction, relaxation and property entries
    of the parameter document, built from the LAMMPS form. */
module Lammps {
  import opened Results
  import opened Json
  import opened Forms
  import Assembly
  import Paths

  /** `InterTypeOptions`: the pair style of the potential. */
  datatype InterType = Deepmd | EamFs | EamAlloy | Meam | MeamSpline | Snap | Gap | Rann | Mace

  function InterTypeName(t: InterType): string {
    match t
    case Deepmd => "deepmd"
    case EamFs => "eam_fs"
    case EamAlloy => "eam_alloy"
    case Meam => "meam"
    case MeamSpline => "meam_spline"
    case Snap => "snap"
    case Gap => "gap"
    case Rann => "rann"
    case Mace => "mace"
  }

  /** The energy-minimisation settings of the relaxation and of every
      advanced property group. */
  datatype Minimize = Minimize(
    etol: Float, ftol: Float, maxiter: int, maxeval: int,
    relaxPos: bool, relaxShape: bool, relaxVol: bool)

  /** The advanced group of eos to gamma: minimisation plus an optional
      LAMMPS input text. */
  datatype Advance = Advance(minimize: Minimize, inLmp: Option<string>)

  datatype PhononOptions = PhononOptions(select: bool, params: PhononParams, inLmp: Option<string>)

  /** The fields of the LAMMPS form that the builders read. The elastic form
      declares no moduli settings. */
  datatype Options = Options(
    potentialModels: seq<string>,
    interType: InterType,
    typeMap: seq<(string, int)>,
    dpmdVersion: string,
    customRelaxLmpInput: bool,
    relax: Minimize,
    relaxInLmp: Option<string>,
    eos: Property<EosParams, Advance>,
    elastic: Property<ElasticParams, Advance>,
    surface: Property<SurfaceParams, Advance>,
    interstitial: Property<InterstitialParams, Advance>,
    vacancy: Property<VacancyParams, Advance>,
    gamma: Property<GammaParams, Advance>,
    phonon: PhononOptions)

  const RelaxInputFile: string := "custom_relax_in.lammps"

  const MinimizeKeys: seq<string> :=
    ["etol", "ftol", "maxiter", "maxeval", "relax_pos", "relax_shape", "relax_vol"]

  function MinimizeFields(m: Minimize): (r: seq<Field>)
    ensures Keys(r) == MinimizeKeys
  {
    [("etol", Num(m.etol)), ("ftol", Num(m.ftol)), ("maxiter", Int(m.maxiter)),
     ("maxeval", Int(m.maxeval)), ("relax_pos", Bool(m.relaxPos)),
     ("relax_shape", Bool(m.relaxShape)), ("relax_vol", Bool(m.relaxVol))]
  }

  /** The file names of the uploaded potentials. */
  function ModelNames(paths: seq<string>): (r: seq<Json>)
    ensures |r| == |paths|
    ensures forall i :: 0 <= i < |paths| ==> r[i] == Str(Paths.Name(paths[i]))
  {
    seq(|paths|, i requires 0 <= i < |paths| => Str(Paths.Name(paths[i])))
  }

  /** `get_interaction`. Element 0 of an empty upload list raises IndexError. */
  function Interaction(o: Options): Result<Built> {
    var models := o.potentialModels;
    if |models| == 0 then Failure(IndexOutOfRange("potential_models"))
    else
      var model := if |models| > 1 then Array(ModelNames(models)) else Str(Paths.Name(models[0]));
      var base := [("type", Str(InterTypeName(o.interType))), ("model", model),
                   ("type_map", IntDict(o.typeMap)), ("deepmd_version", Str(o.dpmdVersion))];
      if Truthy(o.relaxInLmp) then
        Success(Built(Put(base, "in_lammps", Str(RelaxInputFile)), [Emitted(RelaxInputFile, o.relaxInLmp.value)]))
      else Success(Built(base, []))
  }

  /** `get_relaxation`. */
  function Relaxation(o: Options): Built {
    Built([("cal_setting", Object(MinimizeFields(o.relax)))], [])
  }

  /** The input file of a custom property calculation. */
  function InputFile(k: Kind): string {
    "custom_" + KindName(k) + "_in.lammps"
  }

  function CalSetting(k: Kind, a: Advance): (r: Built)
    ensures Truthy(a.inLmp) ==> r.fields == MinimizeFields(a.minimize) + [("input_prop", Str(InputFile(k)))]
    ensures !Truthy(a.inLmp) ==> r.fields == MinimizeFields(a.minimize)
    ensures r.files == if Truthy(a.inLmp) then [Emitted(InputFile(k), a.inLmp.value)] else []
  {
    WithInputProp(MinimizeFields(a.minimize), a.inLmp, InputFile(k))
  }

  function Custom(o: Options, k: Kind): bool {
    match k
    case Eos => o.eos.custom
    case Elastic => o.elastic.custom
    case Surface => o.surface.custom
    case Interstitial => o.interstitial.custom
    case Vacancy => o.vacancy.custom
    case Gamma => o.gamma.custom
    case Phonon => false
  }

  /** The advanced group of kind `k`; phonon has none, only its input text. */
  function AdvanceOf(o: Options, k: Kind): Advance
    requires k != Phonon
  {
    match k
    case Eos => o.eos.advance
    case Elastic => o.elastic.advance
    case Surface => o.surface.advance
    case Interstitial => o.interstitial.advance
    case Vacancy => o.vacancy.advance
    case Gamma => o.gamma.advance
  }

  function Selected(o: Options, k: Kind): bool {
    match k
    case Eos => o.eos.select
    case Elastic => o.elastic.select
    case Surface => o.surface.select
    case Interstitial => o.interstitial.select
    case Vacancy => o.vacancy.select
    case Gamma => o.gamma.select
    case Phonon => o.phonon.select
  }

  /** The geometry fields of kinds eos to gamma, in the builder's key order. */
  function Geometry(o: Options, k: Kind): (r: seq<Field>)
    requires k != Phonon
    ensures "cal_setting" !in Keys(r)
  {
    match k
    case Eos => EosFields(o.eos.params)
    case Elastic => ElasticFields(o.elastic.params)
    case Surface => SurfaceFields(o.surface.params)
    case Interstitial => InterstitialFields(o.interstitial.params)
    case Vacancy => VacancyFields(o.vacancy.params)
    case Gamma =>
      var p := o.gamma.params;
      KeysAppend(GammaGeometry(p), [CalTypeField(p.calType), AddFixField(p)]);
      GammaGeometry(p) + [CalTypeField(p.calType), AddFixField(p)]
  }

  /** One property entry. The elastic builder reads `conventional`, which
      the LAMMPS form never declares, so it always raises AttributeError. */
  function Entry(o: Options, k: Kind): (r: Result<Built>)
    ensures r.Failure? <==> k == Elastic
    ensures r.Failure? ==> r.error == MissingAttribute("conventional")
    ensures r.Success? ==> Tagged(r.value.fields, k)
  {
    match k
    case Elastic => Failure(MissingAttribute("conventional"))
    case Phonon =>
      var e := PhononEntry(o.phonon.params, None, o.phonon.inLmp, InputFile(Phonon));
      Success(e)
    case _ =>
      CustomEntry(k, Geometry(o, k), Custom(o, k), Success(CalSetting(k, AdvanceOf(o, k))))
  }

  function Selector(o: Options): Kind -> bool {
    k => Selected(o, k)
  }

  function Builder(o: Options): Kind -> Result<Built> {
    k => Entry(o, k)
  }

  /** `get_properties`. */
  function Properties(o: Options): Result<Assembly.Collected> {
    Assembly.Collect(AllKinds, Selector(o), Builder(o))
  }

  /** `get_parameter_dict`. */
  function ParameterDict(o: Options): Result<Built> {
    Assembly.ParameterDict(Interaction(o), Success(Relaxation(o)), Properties(o))
  }

  /** The selected kinds, written out flag by flag in the builder's order. */
  function SelectedKinds(o: Options): seq<Kind> {
    Assembly.Pick(o.eos.select, Eos) + (Assembly.Pick(o.elastic.select, Elastic)
    + (Assembly.Pick(o.surface.select, Surface) + (Assembly.Pick(o.interstitial.select, Interstitial)
    + (Assembly.Pick(o.vacancy.select, Vacancy) + (Assembly.Pick(o.gamma.select, Gamma)
    + Assembly.Pick(o.phonon.select, Phonon))))))
  }

  /** `model` is the list of file names for several potentials and the bare
      file name for one; `in_lammps` and its input file appear exactly when
      the relaxation input text is non-empty. */
  lemma InteractionShape(o: Options)
    ensures Interaction(o).Failure? <==> |o.potentialModels| == 0
    ensures Interaction(o).Failure? ==> Interaction(o).error == IndexOutOfRange("potential_models")
    ensures Interaction(o).Success? ==>
      var f := Interaction(o).value.fields;
      && Keys(f) == ["type", "model", "type_map", "deepmd_version"] + (if Truthy(o.relaxInLmp) then ["in_lammps"] else [])
      && Get(f, "model") == Some(if |o.potentialModels| > 1 then Array(ModelNames(o.potentialModels))
                                 else Str(Paths.Name(o.potentialModels[0])))
      && Get(f, "in_lammps") == (if Truthy(o.relaxInLmp) then Some(Str(RelaxInputFile)) else None)
      && Interaction(o).value.files ==
           (if Truthy(o.relaxInLmp) then [Emitted(RelaxInputFile, o.relaxInLmp.value)] else [])
  {
    if |o.potentialModels| > 0 {
      var models := o.potentialModels;
      var model := if |models| > 1 then Array(ModelNames(models)) else Str(Paths.Name(models[0]));
      var base := [("type", Str(InterTypeName(o.interType))), ("model", model),
                   ("type_map", IntDict(o.typeMap)), ("deepmd_version", Str(o.dpmdVersion))];
      assert base[1..][0].0 == "model";
      if Truthy(o.relaxInLmp) {
        var tail := [("in_lammps", Str(RelaxInputFile))];
        GetAppend(base, tail, "model");
        GetAppend(base, tail, "in_lammps");
        KeysAppend(base, tail);
      } else {
        GetNone(base, "in_lammps");
      }
    }
  }

  /** The custom relaxation switch only reveals the input text in the form;
      the interaction does not depend on it. */
  lemma InteractionIgnoresCustomSwitch(o: Options, b: bool)
    ensures Interaction(o.(customRelaxLmpInput := b)) == Interaction(o)
  {
  }

  /** The relaxation holds only `cal_setting`, with exactly the seven
      minimisation keys taken from the relaxation group. */
  lemma RelaxationShape(o: Options)
    ensures Keys(Relaxation(o).fields) == ["cal_setting"]
    ensures Get(Relaxation(o).fields, "cal_setting") == Some(Object(MinimizeFields(o.relax)))
    ensures Keys(MinimizeFields(o.relax)) == MinimizeKeys
    ensures Relaxation(o).files == []
  {
  }

  /** For eos and surface to gamma (the elastic builder raises first, see
      `Entry`), `cal_setting` is present exactly when the custom
      switch is on; it then holds the seven minimisation keys and, exactly
      when the input text is non-empty, `input_prop` naming the file that
      receives the text. */
  lemma CalSettingShape(o: Options, k: Kind)
    requires k != Elastic && k != Phonon
    ensures Entry(o, k).Success?
    ensures (Get(Entry(o, k).value.fields, "cal_setting").Some? <==> Custom(o, k))
    ensures Custom(o, k) ==>
      var text := AdvanceOf(o, k).inLmp;
      && Get(Entry(o, k).value.fields, "cal_setting") == Some(Object(CalSetting(k, AdvanceOf(o, k)).fields))
      && Keys(CalSetting(k, AdvanceOf(o, k)).fields) == MinimizeKeys + (if Truthy(text) then ["input_prop"] else [])
      && Get(CalSetting(k, AdvanceOf(o, k)).fields, "input_prop") == (if Truthy(text) then Some(Str(InputFile(k))) else None)
    ensures Entry(o, k).value.files ==
      if Custom(o, k) && Truthy(AdvanceOf(o, k).inLmp) then [Emitted(InputFile(k), AdvanceOf(o, k).inLmp.value)] else []
  {
    var a := AdvanceOf(o, k);
    var entry := Tag(k) + Geometry(o, k);
    EntryFields(o, k);
    KeysAppend(Tag(k), Geometry(o, k));
    GetAppend(entry, CalSettingField(o, k), "cal_setting");
    CalSettingContents(k, a);
    if !Custom(o, k) {
      GetNone(entry, "cal_setting");
    }
  }

  /** A property `cal_setting` holds the seven minimisation keys, then
      `input_prop` naming the input file exactly when the text is non-empty. */
  lemma CalSettingContents(k: Kind, a: Advance)
    ensures Keys(CalSetting(k, a).fields) == MinimizeKeys + (if Truthy(a.inLmp) then ["input_prop"] else [])
    ensures Get(CalSetting(k, a).fields, "input_prop") == (if Truthy(a.inLmp) then Some(Str(InputFile(k))) else None)
  {
    if Truthy(a.inLmp) {
      var prop := [("input_prop", Str(InputFile(k)))];
      KeysAppend(MinimizeFields(a.minimize), prop);
      GetAppend(MinimizeFields(a.minimize), prop, "input_prop");
    } else {
      GetNone(MinimizeFields(a.minimize), "input_prop");
    }
  }

  /** A phonon entry always carries `cal_setting`, which is empty unless the
      phonon input text is non-empty. */
  lemma PhononCalSetting(o: Options)
    ensures Entry(o, Phonon).Success?
    ensures Get(Entry(o, Phonon).value.fields, "cal_setting") ==
      Some(Object(if Truthy(o.phonon.inLmp) then [("input_prop", Str(InputFile(Phonon)))] else []))
    ensures Entry(o, Phonon).value.files ==
      if Truthy(o.phonon.inLmp) then [Emitted(InputFile(Phonon), o.phonon.inLmp.value)] else []
  {
    PhononEntryShape(o.phonon.params, None, o.phonon.inLmp, InputFile(Phonon));
  }

  /** `add_fix` holds the texts "true"/"false" for the x, y and z switches,
      in that order. */
  lemma AddFixMirrors(o: Options)
    ensures Entry(o, Gamma).Success?
    ensures Get(Entry(o, Gamma).value.fields, "add_fix") ==
      Some(Array([Flag(o.gamma.params.addFixX), Flag(o.gamma.params.addFixY), Flag(o.gamma.params.addFixZ)]))
  {
    EntryFields(o, Gamma);
    AddFixKept(o.gamma.params, CalSettingField(o, Gamma));
  }

  /** The `cal_setting` pair of kind `k`, present when its custom switch is on. */
  function CalSettingField(o: Options, k: Kind): seq<Field> {
    if Custom(o, k) then [("cal_setting", Object(CalSetting(k, AdvanceOf(o, k)).fields))] else []
  }

  /** An entry of eos or surface to gamma is the tag, the geometry and the
      optional `cal_setting`. */
  lemma EntryFields(o: Options, k: Kind)
    requires k != Phonon && k != Elastic
    ensures Entry(o, k).value.fields == Tag(k) + Geometry(o, k) + CalSettingField(o, k)
  {
  }


  /** Visiting the fixed kind order with the form's select switches picks
      exactly the selected kinds. */
  lemma ChosenKinds(o: Options)
    ensures Assembly.Chosen(AllKinds, Selector(o)) == SelectedKinds(o)
  {
    Assembly.ChosenAllKinds(Selector(o));
  }

  /** `get_properties` raises exactly when elastic is selected, with the
      elastic builder's error. */
  lemma PropertiesFailure(o: Options)
    ensures Properties(o).Failure? <==> o.elastic.select
    ensures Properties(o).Failure? ==> Properties(o).error == MissingAttribute("conventional")
  {
    var sel, build := Selector(o), Builder(o);
    var ch := Assembly.Chosen(AllKinds, sel);
    assert Elastic in AllKinds;
    Assembly.ChosenMembers(AllKinds, sel, Elastic);
    assert Elastic in ch <==> o.elastic.select;
    assert (forall k :: k in ch ==> build(k).Success?) <==> Elastic !in ch;
    var r := Properties(o);
    if r.Failure? {
      Assembly.CollectError(AllKinds, sel, build);
      var i :| Assembly.FirstFailure(ch, build, i) && r.error == build(ch[i]).error;
      assert ch[i] == Elastic;
    }
  }

  /** `get_properties` returns one entry per selected kind, in the fixed
      kind order, each tagged with its kind and `"skip": false`; it raises
      exactly when elastic is selected. */
  lemma PropertiesSpec(o: Options)
    ensures Properties(o).Failure? <==> o.elastic.select
    ensures Properties(o).Failure? ==> Properties(o).error == MissingAttribute("conventional")
    ensures Properties(o).Success? ==>
      && |Properties(o).value.items| == |SelectedKinds(o)|
      && forall i :: 0 <= i < |SelectedKinds(o)| ==>
           Properties(o).value.items[i].Object? && Tagged(Properties(o).value.items[i].fields, SelectedKinds(o)[i])
  {
    PropertiesFailure(o);
    ChosenKinds(o);
    var r := Properties(o);
    if r.Success? {
      var ch := SelectedKinds(o);
      forall i | 0 <= i < |ch|
        ensures r.value.items[i].Object? && Tagged(r.value.items[i].fields, ch[i])
      {
        assert r.value.items[i] == Object(Entry(o, ch[i]).value.fields);
      }
    }
  }

  /** The document always has the structures glob, the interaction and the
      relaxation; `properties` follows exactly when some kind is selected.
      It fails exactly when no potential is uploaded or elastic is selected. */
  lemma ParameterDictShape(o: Options)
    ensures ParameterDict(o).Failure? <==> |o.potentialModels| == 0 || o.elastic.select
    ensures ParameterDict(o).Success? ==>
      Keys(ParameterDict(o).value.fields) ==
        ["structures", "interaction", "relaxation"] + (if |SelectedKinds(o)| > 0 then ["properties"] else [])
  {
    InteractionShape(o);
    PropertiesSpec(o);
  }
}
