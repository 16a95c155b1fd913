/** The ABACUS front end: the interaction, relaxation and property entries of
    the parameter document, built from the ABACUS form. Several branches read
    settings the form never declares or treat a text field as a mapping, so
    they raise instead of building their entry. */
module Abacus {
  import opened Results
  import opened Json
  import opened Forms
  import Assembly
  import Paths

  datatype RelaxFlags = RelaxFlags(relaxPos: bool, relaxShape: bool, relaxVol: bool)

  /** The advanced group of eos to gamma: the INPUT-settings mapping, the
      three relaxation switches, the k-point mesh and the INPUT text. */
  datatype Advance = Advance(
    specifyInput: Option<seq<(string, string)>>,
    flags: RelaxFlags,
    kPoints: Option<seq<int>>,
    input: Option<string>)

  datatype PhononOptions = PhononOptions(select: bool, params: PhononParams, input: Option<string>)

  /** The fields of the ABACUS form that the builders read. The elastic form
      declares no moduli settings, and no group declares `relax_input` or
      the `<kind>_ediff` overrides. */
  datatype Options = Options(
    input: string,
    potentialMap: seq<(string, string)>,
    orbfileMap: seq<(string, string)>,
    deepksMap: Option<seq<(string, string)>>,
    specifyRelaxInput: Option<seq<(string, string)>>,
    relaxFlags: RelaxFlags,
    kPoints: Option<seq<int>>,
    eos: Property<EosParams, Advance>,
    elastic: Property<ElasticParams, Advance>,
    surface: Property<SurfaceParams, Advance>,
    interstitial: Property<InterstitialParams, Advance>,
    vacancy: Property<VacancyParams, Advance>,
    gamma: Property<GammaParams, Advance>,
    phonon: PhononOptions)

  const FlagKeys: seq<string> := ["relax_pos", "relax_shape", "relax_vol"]

  function FlagFields(f: RelaxFlags): (r: seq<Field>)
    ensures Keys(r) == FlagKeys
  {
    [("relax_pos", Bool(f.relaxPos)), ("relax_shape", Bool(f.relaxShape)), ("relax_vol", Bool(f.relaxVol))]
  }

  /** The `K_POINTS` value: the mesh when it is non-empty, absent otherwise. */
  function KPoints(kp: Option<seq<int>>): Option<Json> {
    if Truthy(kp) then Some(IntList(kp.value)) else None
  }

  function KPointsKey(kp: Option<seq<int>>): seq<string> {
    if Truthy(kp) then ["K_POINTS"] else []
  }

  /** The switches followed by `K_POINTS` when the mesh is non-empty. */
  function WithKPoints(f: RelaxFlags, kp: Option<seq<int>>): (r: seq<Field>)
    ensures Keys(r) == FlagKeys + KPointsKey(kp)
    ensures Get(r, "K_POINTS") == KPoints(kp)
  {
    GetNone(FlagFields(f), "K_POINTS");
    PutOpt(FlagFields(f), "K_POINTS", KPoints(kp))
  }

  /** `get_interaction`. */
  function Interaction(o: Options): Built {
    var base := [("type", Str("abacus")), ("incar", Str(Paths.Name(o.input))), ("potcar_prefix", Str(".")),
                 ("potcars", StrDict(o.potentialMap)), ("orb_files", StrDict(o.orbfileMap))];
    Built(PutOpt(base, "deepks_desc", if Truthy(o.deepksMap) then Some(StrDict(o.deepksMap.value)) else None), [])
  }

  /** `get_relaxation`. A non-empty INPUT-settings mapping sends the builder
      to `relax_input`, which the form does not declare. */
  function Relaxation(o: Options): Result<Built> {
    if Truthy(o.specifyRelaxInput) then Failure(MissingAttribute("relax_input"))
    else Success(Built([("cal_setting", Object(WithKPoints(o.relaxFlags, o.kPoints)))], []))
  }

  /** The INPUT file of a property calculation. */
  function InputFile(k: Kind): string {
    "INPUT." + KindName(k)
  }

  /** The EOS `cal_setting`. A non-empty INPUT-settings mapping makes the
      builder iterate over the items of the INPUT text, which is not a
      mapping. */
  function EosCalSetting(a: Advance): (r: Result<Built>)
    ensures r.Failure? <==> Truthy(a.specifyInput)
    ensures r.Failure? ==> r.error == NotAMapping("eos_input")
  {
    if Truthy(a.specifyInput) then Failure(NotAMapping("eos_input"))
    else
      Success(WithInputProp(WithKPoints(a.flags, a.kPoints), a.input, InputFile(Eos)))
  }

  /** The `cal_setting` of elastic to gamma: the builder reads the
      undeclared `<kind>_ediff` and raises. */
  function UndeclaredOverride(k: Kind): Error {
    MissingAttribute(KindName(k) + "_ediff")
  }

  function Custom(o: Options, k: Kind): bool {
    match k
    case Eos => o.eos.custom
    case Elastic => o.elastic.custom
    case Surface => o.surface.custom
    case Interstitial => o.interstitial.custom
    case Vacancy => o.vacancy.custom
    case Gamma => o.gamma.custom
    case Phonon => false
  }

  function Selected(o: Options, k: Kind): bool {
    match k
    case Eos => o.eos.select
    case Elastic => o.elastic.select
    case Surface => o.surface.select
    case Interstitial => o.interstitial.select
    case Vacancy => o.vacancy.select
    case Gamma => o.gamma.select
    case Phonon => o.phonon.select
  }

  /** The geometry fields of kinds eos to gamma, in the builder's key order;
      the gamma entry puts `add_fix` before `cal_type`. */
  function Geometry(o: Options, k: Kind): (r: seq<Field>)
    requires k != Phonon
    ensures "cal_setting" !in Keys(r)
  {
    match k
    case Eos => EosFields(o.eos.params)
    case Elastic => ElasticFields(o.elastic.params)
    case Surface => SurfaceFields(o.surface.params)
    case Interstitial => InterstitialFields(o.interstitial.params)
    case Vacancy => VacancyFields(o.vacancy.params)
    case Gamma =>
      var p := o.gamma.params;
      KeysAppend(GammaGeometry(p), [AddFixField(p), CalTypeField(p.calType)]);
      GammaGeometry(p) + [AddFixField(p), CalTypeField(p.calType)]
  }

  /** Whether the builder of kind `k` raises. */
  predicate Broken(o: Options, k: Kind) {
    Custom(o, k) && (k != Eos || Truthy(o.eos.advance.specifyInput))
  }

  /** The error a broken builder raises. */
  function BrokenError(k: Kind): Error {
    if k == Eos then NotAMapping("eos_input") else UndeclaredOverride(k)
  }

  /** One property entry. */
  function Entry(o: Options, k: Kind): (r: Result<Built>)
    ensures r.Failure? <==> Broken(o, k)
    ensures r.Failure? ==> r.error == BrokenError(k)
    ensures r.Success? ==> Tagged(r.value.fields, k)
  {
    match k
    case Phonon => Success(PhononEntry(o.phonon.params, None, o.phonon.input, InputFile(Phonon)))
    case Eos => CustomEntry(Eos, Geometry(o, Eos), o.eos.custom, EosCalSetting(o.eos.advance))
    case _ => CustomEntry(k, Geometry(o, k), Custom(o, k), Failure(UndeclaredOverride(k)))
  }

  function Selector(o: Options): Kind -> bool {
    k => Selected(o, k)
  }

  function Builder(o: Options): Kind -> Result<Built> {
    k => Entry(o, k)
  }

  /** `get_properties`. */
  function Properties(o: Options): Result<Assembly.Collected> {
    Assembly.Collect(AllKinds, Selector(o), Builder(o))
  }

  /** `get_parameter_dict`. */
  function ParameterDict(o: Options): Result<Built> {
    Assembly.ParameterDict(Success(Interaction(o)), Relaxation(o), Properties(o))
  }

  /** The selected kinds, written out flag by flag in the builder's order. */
  function SelectedKinds(o: Options): seq<Kind> {
    Assembly.Pick(o.eos.select, Eos) + (Assembly.Pick(o.elastic.select, Elastic)
    + (Assembly.Pick(o.surface.select, Surface) + (Assembly.Pick(o.interstitial.select, Interstitial)
    + (Assembly.Pick(o.vacancy.select, Vacancy) + (Assembly.Pick(o.gamma.select, Gamma)
    + Assembly.Pick(o.phonon.select, Phonon))))))
  }

  /** The error `get_properties` is expected to raise, read off the form:
      the first selected kind, in the fixed order, whose builder breaks. */
  function ExpectedError(o: Options): Option<Error> {
    if o.eos.select && o.eos.custom && Truthy(o.eos.advance.specifyInput) then Some(NotAMapping("eos_input"))
    else if o.elastic.select && o.elastic.custom then Some(MissingAttribute("elastic_ediff"))
    else if o.surface.select && o.surface.custom then Some(MissingAttribute("surface_ediff"))
    else ExpectedLater(o)
  }

  /** The expected error when eos, elastic and surface all pass. */
  function ExpectedLater(o: Options): Option<Error> {
    if o.interstitial.select && o.interstitial.custom then Some(MissingAttribute("interstitial_ediff"))
    else if o.vacancy.select && o.vacancy.custom then Some(MissingAttribute("vacancy_ediff"))
    else if o.gamma.select && o.gamma.custom then Some(MissingAttribute("gamma_ediff"))
    else None
  }

  /** The interaction holds the engine tag, the INPUT file name, the
      potential prefix, the potential and orbital maps, and `deepks_desc`
      exactly when the DeepKS map is non-empty. */
  lemma InteractionShape(o: Options)
    ensures Keys(Interaction(o).fields) ==
      ["type", "incar", "potcar_prefix", "potcars", "orb_files"] + (if Truthy(o.deepksMap) then ["deepks_desc"] else [])
    ensures Get(Interaction(o).fields, "type") == Some(Str("abacus"))
    ensures Get(Interaction(o).fields, "incar") == Some(Str(Paths.Name(o.input)))
    ensures Get(Interaction(o).fields, "potcar_prefix") == Some(Str("."))
    ensures Get(Interaction(o).fields, "potcars") == Some(StrDict(o.potentialMap))
    ensures Get(Interaction(o).fields, "orb_files") == Some(StrDict(o.orbfileMap))
    ensures Get(Interaction(o).fields, "deepks_desc") ==
      if Truthy(o.deepksMap) then Some(StrDict(o.deepksMap.value)) else None
    ensures Interaction(o).files == []
  {
    var base := [("type", Str("abacus")), ("incar", Str(Paths.Name(o.input))), ("potcar_prefix", Str(".")),
                 ("potcars", StrDict(o.potentialMap)), ("orb_files", StrDict(o.orbfileMap))];
    GetNone(base, "deepks_desc");
    GetAt(base, 1);
    GetAt(base, 2);
    GetAt(base, 3);
    GetAt(base, 4);
  }

  /** The relaxation raises exactly when the INPUT-settings mapping is
      non-empty. Otherwise it holds only `cal_setting`: the three switches
      and `K_POINTS` exactly when the mesh is non-empty. */
  lemma RelaxationShape(o: Options)
    ensures Relaxation(o).Failure? <==> Truthy(o.specifyRelaxInput)
    ensures Relaxation(o).Failure? ==> Relaxation(o).error == MissingAttribute("relax_input")
    ensures Relaxation(o).Success? ==>
      && Keys(Relaxation(o).value.fields) == ["cal_setting"]
      && Get(Relaxation(o).value.fields, "cal_setting") == Some(Object(WithKPoints(o.relaxFlags, o.kPoints)))
      && Keys(WithKPoints(o.relaxFlags, o.kPoints)) == FlagKeys + KPointsKey(o.kPoints)
      && Get(WithKPoints(o.relaxFlags, o.kPoints), "K_POINTS") == KPoints(o.kPoints)
      && Relaxation(o).value.files == []
  {
  }

  /** A custom EOS entry raises exactly when the INPUT-settings mapping is
      non-empty. Otherwise its `cal_setting` holds the switches, `K_POINTS`
      exactly when the mesh is non-empty and `input_prop` naming `INPUT.eos`
      exactly when the INPUT text is non-empty; that file is the only one
      written. */
  lemma EosShape(o: Options)
    ensures Entry(o, Eos).Failure? <==> o.eos.custom && Truthy(o.eos.advance.specifyInput)
    ensures (Entry(o, Eos).Success? && o.eos.custom) ==>
      var a := o.eos.advance;
      var cal := WithInputProp(WithKPoints(a.flags, a.kPoints), a.input, InputFile(Eos));
      && Get(Entry(o, Eos).value.fields, "cal_setting") == Some(Object(cal.fields))
      && Keys(cal.fields) == FlagKeys + KPointsKey(a.kPoints) + (if Truthy(a.input) then ["input_prop"] else [])
      && Get(cal.fields, "K_POINTS") == KPoints(a.kPoints)
      && Get(cal.fields, "input_prop") == (if Truthy(a.input) then Some(Str(InputFile(Eos))) else None)
      && Entry(o, Eos).value.files == (if Truthy(a.input) then [Emitted(InputFile(Eos), a.input.value)] else [])
    ensures !o.eos.custom ==> Get(Entry(o, Eos).value.fields, "cal_setting") == None && Entry(o, Eos).value.files == []
  {
    var entry := Tag(Eos) + Geometry(o, Eos);
    KeysAppend(Tag(Eos), Geometry(o, Eos));
    var a := o.eos.advance;
    if o.eos.custom && !Truthy(a.specifyInput) {
      var cal := WithInputProp(WithKPoints(a.flags, a.kPoints), a.input, InputFile(Eos));
      GetAppend(entry, [("cal_setting", Object(cal.fields))], "cal_setting");
      EosCalContents(a);
    } else if !o.eos.custom {
      GetNone(entry, "cal_setting");
    }
  }

  /** The EOS `cal_setting`: the switches, `K_POINTS` when the mesh is
      non-empty, then `input_prop` when the INPUT text is non-empty. */
  lemma EosCalContents(a: Advance)
    ensures var cal := WithInputProp(WithKPoints(a.flags, a.kPoints), a.input, InputFile(Eos)).fields;
      && Keys(cal) == FlagKeys + KPointsKey(a.kPoints) + (if Truthy(a.input) then ["input_prop"] else [])
      && Get(cal, "K_POINTS") == KPoints(a.kPoints)
      && Get(cal, "input_prop") == (if Truthy(a.input) then Some(Str(InputFile(Eos))) else None)
  {
    var base := WithKPoints(a.flags, a.kPoints);
    if Truthy(a.input) {
      var prop := [("input_prop", Str(InputFile(Eos)))];
      KeysAppend(base, prop);
      GetAppend(base, prop, "input_prop");
      GetSkip(base, prop, "K_POINTS");
    } else {
      GetNone(base, "input_prop");
    }
  }

  /** Elastic to gamma raise exactly when their custom switch is on, on the
      undeclared `<kind>_ediff`; otherwise the entry has no `cal_setting`
      and writes nothing. */
  lemma CustomBranchBroken(o: Options, k: Kind)
    requires k != Eos && k != Phonon
    ensures Entry(o, k).Failure? <==> Custom(o, k)
    ensures Entry(o, k).Failure? ==> Entry(o, k).error == MissingAttribute(KindName(k) + "_ediff")
    ensures Entry(o, k).Success? ==>
      Get(Entry(o, k).value.fields, "cal_setting") == None && Entry(o, k).value.files == []
  {
    KeysAppend(Tag(k), Geometry(o, k));
    GetNone(Tag(k) + Geometry(o, k), "cal_setting");
  }

  /** The advanced groups of elastic to gamma never reach the document. */
  lemma AdvanceUnread(o: Options, a: Advance)
    ensures Entry(o.(elastic := o.elastic.(advance := a)), Elastic) == Entry(o, Elastic)
    ensures Entry(o.(surface := o.surface.(advance := a)), Surface) == Entry(o, Surface)
    ensures Entry(o.(interstitial := o.interstitial.(advance := a)), Interstitial) == Entry(o, Interstitial)
    ensures Entry(o.(vacancy := o.vacancy.(advance := a)), Vacancy) == Entry(o, Vacancy)
    ensures Entry(o.(gamma := o.gamma.(advance := a)), Gamma) == Entry(o, Gamma)
  {
  }

  /** Whenever it builds, the elastic entry holds the tag and the three
      deformation settings only: none of the moduli settings the form
      declares. */
  lemma ElasticWithoutModuli(o: Options)
    ensures Entry(o, Elastic).Success? ==>
      Keys(Entry(o, Elastic).value.fields) == ["type", "skip", "norm_deform", "shear_deform", "cal_type"]
  {
    KeysAppend(Tag(Elastic), ElasticFields(o.elastic.params));
  }

  /** `add_fix` comes before `cal_type` in the gamma entry. */
  lemma GammaKeyOrder(o: Options)
    ensures Entry(o, Gamma).Success? ==>
      Keys(Entry(o, Gamma).value.fields)[..11] ==
        ["type", "skip", "plane_miller", "slip_direction", "slip_length", "plane_shift",
         "n_steps", "supercell_size", "vacuum_size", "add_fix", "cal_type"]
  {
    var p := o.gamma.params;
    KeysAppend(GammaGeometry(p), [AddFixField(p), CalTypeField(p.calType)]);
    KeysAppend(Tag(Gamma), Geometry(o, Gamma));
  }

  /** The phonon entry carries no `approach` and always `cal_setting`, which
      names `INPUT.phonon` exactly when the phonon INPUT text is non-empty. */
  lemma PhononShape(o: Options)
    ensures Entry(o, Phonon).Success?
    ensures "approach" !in Keys(Entry(o, Phonon).value.fields)
    ensures Get(Entry(o, Phonon).value.fields, "cal_setting") ==
      Some(Object(if Truthy(o.phonon.input) then [("input_prop", Str(InputFile(Phonon)))] else []))
    ensures Entry(o, Phonon).value.files ==
      if Truthy(o.phonon.input) then [Emitted(InputFile(Phonon), o.phonon.input.value)] else []
  {
    PhononEntryShape(o.phonon.params, None, o.phonon.input, InputFile(Phonon));
    GetNone(Entry(o, Phonon).value.fields, "approach");
  }

  lemma ChosenKinds(o: Options)
    ensures Assembly.Chosen(AllKinds, Selector(o)) == SelectedKinds(o)
  {
    Assembly.ChosenAllKinds(Selector(o));
  }

  /** `get_properties` raises exactly when `ExpectedError` names an error,
      and then raises that error: the custom EOS branch with a non-empty
      INPUT-settings mapping, or the first custom branch among elastic to
      gamma, whichever comes first in the fixed order. */
  lemma PropertiesFailure(o: Options)
    ensures Properties(o).Failure? <==> ExpectedError(o).Some?
    ensures Properties(o).Failure? ==> Properties(o).error == ExpectedError(o).value
  {
    Assembly.CollectFirstError(AllKinds, Selector(o), Builder(o));
    ExpectedIsFirst(o);
  }

  /** `ExpectedError` is the first-error search over the fixed kind order. */
  lemma ExpectedIsFirst(o: Options)
    ensures Assembly.FirstError(AllKinds, Selector(o), Builder(o)) == ExpectedError(o)
  {
    var sel, build := Selector(o), Builder(o);
    Assembly.FirstErrorAllKinds(sel, build);
    BrokenErrors();
    var x3 := LaterStages(o);
    var x2 := Assembly.Stage(Surface, sel, build, x3);
    StageMatches(o, Surface, x3);
    var x1 := Assembly.Stage(Elastic, sel, build, x2);
    StageMatches(o, Elastic, x2);
    StageMatches(o, Eos, x1);
  }

  /** The stages from interstitial on decide the error `ExpectedLater`
      names. */
  lemma LaterStages(o: Options) returns (x: Option<Error>)
    ensures x == Assembly.Stage(Interstitial, Selector(o), Builder(o), Assembly.Stage(Vacancy, Selector(o), Builder(o),
      Assembly.Stage(Gamma, Selector(o), Builder(o), Assembly.Stage(Phonon, Selector(o), Builder(o), None))))
    ensures x == ExpectedLater(o)
  {
    var sel, build := Selector(o), Builder(o);
    BrokenErrors();
    var x6 := Assembly.Stage(Phonon, sel, build, None);
    StageMatches(o, Phonon, None);
    var x5 := Assembly.Stage(Gamma, sel, build, x6);
    StageMatches(o, Gamma, x6);
    var x4 := Assembly.Stage(Vacancy, sel, build, x5);
    StageMatches(o, Vacancy, x5);
    x := Assembly.Stage(Interstitial, sel, build, x4);
    StageMatches(o, Interstitial, x4);
  }

  /** The attribute each broken custom branch is missing. */
  lemma BrokenErrors()
    ensures BrokenError(Eos) == NotAMapping("eos_input")
    ensures BrokenError(Elastic) == MissingAttribute("elastic_ediff")
    ensures BrokenError(Surface) == MissingAttribute("surface_ediff")
    ensures BrokenError(Interstitial) == MissingAttribute("interstitial_ediff")
    ensures BrokenError(Vacancy) == MissingAttribute("vacancy_ediff")
    ensures BrokenError(Gamma) == MissingAttribute("gamma_ediff")
  {
  }

  /** One step of the first-error search: a selected broken kind decides
      the error, any other kind passes on to the later ones. */
  lemma StageMatches(o: Options, k: Kind, later: Option<Error>)
    ensures Assembly.Stage(k, Selector(o), Builder(o), later) ==
      if Selected(o, k) && Broken(o, k) then Some(BrokenError(k)) else later
  {
  }

  /** On success, `get_properties` returns one entry per selected kind, in
      the fixed kind order, each tagged with its kind. */
  lemma PropertiesSpec(o: Options)
    ensures Properties(o).Success? ==>
      && |Properties(o).value.items| == |SelectedKinds(o)|
      && forall i :: 0 <= i < |SelectedKinds(o)| ==>
           Properties(o).value.items[i].Object? && Tagged(Properties(o).value.items[i].fields, SelectedKinds(o)[i])
  {
    ChosenKinds(o);
    var r := Properties(o);
    if r.Success? {
      var ch := SelectedKinds(o);
      forall i | 0 <= i < |ch|
        ensures r.value.items[i].Object? && Tagged(r.value.items[i].fields, ch[i])
      {
        assert r.value.items[i] == Object(Entry(o, ch[i]).value.fields);
      }
    }
  }

  /** The document fails exactly when the relaxation or the properties
      raise, the relaxation's error taking precedence; otherwise it has the
      structures glob, the interaction, the relaxation, and `properties`
      exactly when some kind is selected. */
  lemma ParameterDictShape(o: Options)
    ensures ParameterDict(o).Failure? <==> Truthy(o.specifyRelaxInput) || ExpectedError(o).Some?
    ensures ParameterDict(o).Failure? ==> (ParameterDict(o).error ==
      if Truthy(o.specifyRelaxInput) then MissingAttribute("relax_input") else ExpectedError(o).value)
    ensures ParameterDict(o).Success? ==>
      Keys(ParameterDict(o).value.fields) ==
        ["structures", "interaction", "relaxation"] + (if |SelectedKinds(o)| > 0 then ["properties"] else [])
  {
    RelaxationShape(o);
    PropertiesFailure(o);
    PropertiesSpec(o);
  }
}
