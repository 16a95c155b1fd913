/** The VASP front end: the interaction, relaxation and property entries of
    the parameter document, built from the VASP form. No VASP builder can
    raise. */
module Vasp {
  import opened Results
  import opened Json
  import opened Forms
  import Assembly
  import Paths

  /** The optional INCAR overrides; each is a text field whose default is
      None. */
  datatype Tolerances = Tolerances(
    ediff: Option<string>, ediffg: Option<string>, encut: Option<string>, kspacing: Option<string>)

  datatype Flags = Flags(kgamma: bool, relaxPos: bool, relaxShape: bool, relaxVol: bool)

  /** The advanced group of eos to gamma. */
  datatype Advance = Advance(tolerances: Tolerances, flags: Flags, incar: Option<string>)

  /** `PhononApproaches`. */
  datatype Approach = Linear | Displacement

  function ApproachName(a: Approach): string {
    match a
    case Linear => "linear"
    case Displacement => "displacement"
  }

  datatype PhononOptions = PhononOptions(
    select: bool, params: PhononParams, approach: Approach, incar: Option<string>)

  /** The fields of the VASP form that the builders read. */
  datatype Options = Options(
    incar: string,
    potcarMap: seq<(string, string)>,
    relaxTolerances: Tolerances,
    relaxFlags: Flags,
    eos: Property<EosParams, Advance>,
    elastic: Property<ElasticParams, Advance>,
    moduli: Moduli,
    surface: Property<SurfaceParams, Advance>,
    interstitial: Property<InterstitialParams, Advance>,
    vacancy: Property<VacancyParams, Advance>,
    gamma: Property<GammaParams, Advance>,
    phonon: PhononOptions)

  const FlagKeys: seq<string> := ["kgamma", "relax_pos", "relax_shape", "relax_vol"]

  function FlagFields(f: Flags): (r: seq<Field>)
    ensures Keys(r) == FlagKeys
  {
    [("kgamma", Bool(f.kgamma)), ("relax_pos", Bool(f.relaxPos)),
     ("relax_shape", Bool(f.relaxShape)), ("relax_vol", Bool(f.relaxVol))]
  }

  /** The key an override contributes when it is set. */
  function PresentKey(k: string, s: Option<string>): seq<string> {
    if Truthy(s) then [k] else []
  }

  /** The override keys a tolerance group contributes, in the builder's order. */
  function ToleranceKeys(t: Tolerances): seq<string> {
    PresentKey("ediff", t.ediff) + PresentKey("ediffg", t.ediffg)
    + PresentKey("encut", t.encut) + PresentKey("kspacing", t.kspacing)
  }

  /** The value a non-empty override takes in the document; absent otherwise. */
  function Override(s: Option<string>): Option<Json> {
    if Truthy(s) then Some(Str(s.value)) else None
  }

  /** The pair an override contributes when it is set. */
  function Present(k: string, s: Option<string>): seq<Field> {
    if Truthy(s) then [(k, Str(s.value))] else []
  }

  /** The four `if opts.x: cal["x"] = opts.x` steps, applied to the four
      switches; each set override lands after the switches and the earlier
      overrides. */
  function WithTolerances(f: Flags, t: Tolerances): (r: seq<Field>)
    ensures r == FlagFields(f) + Present("ediff", t.ediff) + Present("ediffg", t.ediffg)
                 + Present("encut", t.encut) + Present("kspacing", t.kspacing)
  {
    var c0 := FlagFields(f);
    var c1 := SetOverride(c0, "ediff", t.ediff);
    OtherKey("ediffg", "ediff", t.ediff);
    var c2 := SetOverride(c1, "ediffg", t.ediffg);
    OtherKey("encut", "ediff", t.ediff);
    OtherKey("encut", "ediffg", t.ediffg);
    var c3 := SetOverride(c2, "encut", t.encut);
    OtherKey("kspacing", "ediff", t.ediff);
    OtherKey("kspacing", "ediffg", t.ediffg);
    OtherKey("kspacing", "encut", t.encut);
    SetOverride(c3, "kspacing", t.kspacing)
  }

  /** An override contributes no key but its own. */
  lemma OtherKey(x: string, k: string, s: Option<string>)
    requires x != k
    ensures x !in PresentKey(k, s)
  {
  }

  /** One `if opts.x: cal["x"] = opts.x` step on a block without `x`. */
  function SetOverride(cal: seq<Field>, k: string, s: Option<string>): (r: seq<Field>)
    requires k !in Keys(cal)
    ensures r == cal + Present(k, s)
    ensures Keys(r) == Keys(cal) + PresentKey(k, s)
  {
    PutOpt(cal, k, Override(s))
  }

  /** The switches come first; each override key follows exactly when its
      field is non-empty; there is no `input_prop` yet. */
  lemma ToleranceKeysOf(f: Flags, t: Tolerances)
    ensures Keys(WithTolerances(f, t)) == FlagKeys + ToleranceKeys(t)
    ensures "input_prop" !in Keys(WithTolerances(f, t))
  {
    var c0 := FlagFields(f);
    var e, g, c, k := Present("ediff", t.ediff), Present("ediffg", t.ediffg), Present("encut", t.encut), Present("kspacing", t.kspacing);
    PresentKeys("ediff", t.ediff);
    PresentKeys("ediffg", t.ediffg);
    PresentKeys("encut", t.encut);
    PresentKeys("kspacing", t.kspacing);
    KeysAppend(c0, e);
    KeysAppend(c0 + e, g);
    KeysAppend(c0 + e + g, c);
    KeysAppend(c0 + e + g + c, k);
    OtherKey("input_prop", "ediff", t.ediff);
    OtherKey("input_prop", "ediffg", t.ediffg);
    OtherKey("input_prop", "encut", t.encut);
    OtherKey("input_prop", "kspacing", t.kspacing);
    assert FlagKeys + PresentKey("ediff", t.ediff) + PresentKey("ediffg", t.ediffg)
      + PresentKey("encut", t.encut) + PresentKey("kspacing", t.kspacing) == FlagKeys + ToleranceKeys(t);
  }

  /** The overrides never touch the switches. */
  lemma SwitchLookup(f: Flags, t: Tolerances, key: string)
    requires key in FlagKeys
    ensures Get(WithTolerances(f, t), key) == Get(FlagFields(f), key)
  {
    var c0 := FlagFields(f);
    var e, g, c, k := Present("ediff", t.ediff), Present("ediffg", t.ediffg), Present("encut", t.encut), Present("kspacing", t.kspacing);
    KeysAppend(c0, e);
    KeysAppend(c0 + e, g);
    KeysAppend(c0 + e + g, c);
    GetAppend(c0 + e + g + c, k, key);
    GetAppend(c0 + e + g, c, key);
    GetAppend(c0 + e, g, key);
    GetAppend(c0, e, key);
  }

  lemma PresentKeys(k: string, s: Option<string>)
    ensures Keys(Present(k, s)) == PresentKey(k, s)
  {
  }

  /** Each override key holds its field's text exactly when that text is
      non-empty. */
  lemma OverrideLookup(f: Flags, t: Tolerances)
    ensures Get(WithTolerances(f, t), "ediff") == Override(t.ediff)
    ensures Get(WithTolerances(f, t), "ediffg") == Override(t.ediffg)
    ensures Get(WithTolerances(f, t), "encut") == Override(t.encut)
    ensures Get(WithTolerances(f, t), "kspacing") == Override(t.kspacing)
  {
    EdiffLookup(f, t);
    EdiffgLookup(f, t);
    EncutLookup(f, t);
    KspacingLookup(f, t);
  }

  lemma EdiffLookup(f: Flags, t: Tolerances)
    ensures Get(WithTolerances(f, t), "ediff") == Override(t.ediff)
  {
    var c0 := FlagFields(f);
    var e, g, c, k := Present("ediff", t.ediff), Present("ediffg", t.ediffg), Present("encut", t.encut), Present("kspacing", t.kspacing);
    PresentKeys("ediffg", t.ediffg);
    PresentKeys("encut", t.encut);
    PresentKeys("kspacing", t.kspacing);
    GetSkip(c0 + e + g + c, k, "ediff");
    GetSkip(c0 + e + g, c, "ediff");
    GetSkip(c0 + e, g, "ediff");
    GetAppend(c0, e, "ediff");
  }

  lemma EdiffgLookup(f: Flags, t: Tolerances)
    ensures Get(WithTolerances(f, t), "ediffg") == Override(t.ediffg)
  {
    var c0 := FlagFields(f);
    var e, g, c, k := Present("ediff", t.ediff), Present("ediffg", t.ediffg), Present("encut", t.encut), Present("kspacing", t.kspacing);
    PresentKeys("ediff", t.ediff);
    PresentKeys("encut", t.encut);
    PresentKeys("kspacing", t.kspacing);
    KeysAppend(c0, e);
    GetSkip(c0 + e + g + c, k, "ediffg");
    GetSkip(c0 + e + g, c, "ediffg");
    GetAppend(c0 + e, g, "ediffg");
  }

  lemma EncutLookup(f: Flags, t: Tolerances)
    ensures Get(WithTolerances(f, t), "encut") == Override(t.encut)
  {
    var c0 := FlagFields(f);
    var e, g, c, k := Present("ediff", t.ediff), Present("ediffg", t.ediffg), Present("encut", t.encut), Present("kspacing", t.kspacing);
    PresentKeys("ediff", t.ediff);
    PresentKeys("ediffg", t.ediffg);
    PresentKeys("kspacing", t.kspacing);
    KeysAppend(c0, e);
    KeysAppend(c0 + e, g);
    GetSkip(c0 + e + g + c, k, "encut");
    GetAppend(c0 + e + g, c, "encut");
  }

  lemma KspacingLookup(f: Flags, t: Tolerances)
    ensures Get(WithTolerances(f, t), "kspacing") == Override(t.kspacing)
  {
    var c0 := FlagFields(f);
    var e, g, c, k := Present("ediff", t.ediff), Present("ediffg", t.ediffg), Present("encut", t.encut), Present("kspacing", t.kspacing);
    PresentKeys("ediff", t.ediff);
    PresentKeys("ediffg", t.ediffg);
    PresentKeys("encut", t.encut);
    KeysAppend(c0, e);
    KeysAppend(c0 + e, g);
    KeysAppend(c0 + e + g, c);
    GetAppend(c0 + e + g + c, k, "kspacing");
  }

  /** The four switches take the values of the group they come from. */
  lemma SwitchValues(f: Flags, t: Tolerances)
    ensures Get(WithTolerances(f, t), "kgamma") == Some(Bool(f.kgamma))
    ensures Get(WithTolerances(f, t), "relax_pos") == Some(Bool(f.relaxPos))
    ensures Get(WithTolerances(f, t), "relax_shape") == Some(Bool(f.relaxShape))
    ensures Get(WithTolerances(f, t), "relax_vol") == Some(Bool(f.relaxVol))
  {
    SwitchLookup(f, t, "kgamma");
    SwitchLookup(f, t, "relax_pos");
    SwitchLookup(f, t, "relax_shape");
    SwitchLookup(f, t, "relax_vol");
    FlagValues(f);
  }

  /** Each switch key holds its switch. */
  lemma FlagValues(f: Flags)
    ensures Get(FlagFields(f), "kgamma") == Some(Bool(f.kgamma))
    ensures Get(FlagFields(f), "relax_pos") == Some(Bool(f.relaxPos))
    ensures Get(FlagFields(f), "relax_shape") == Some(Bool(f.relaxShape))
    ensures Get(FlagFields(f), "relax_vol") == Some(Bool(f.relaxVol))
  {
    var c0 := FlagFields(f);
    GetAt(c0, 1);
    GetAt(c0, 2);
    GetAt(c0, 3);
  }

  /** `get_interaction`. */
  function Interaction(o: Options): Built {
    Built([("type", Str("vasp")), ("incar", Str(Paths.Name(o.incar))),
           ("potcar_prefix", Str(".")), ("potcars", StrDict(o.potcarMap))], [])
  }

  /** `get_relaxation`. */
  function Relaxation(o: Options): Built {
    Built([("cal_setting", Object(WithTolerances(o.relaxFlags, o.relaxTolerances)))], [])
  }

  /** The INCAR file of a property calculation. */
  function IncarFile(k: Kind): string {
    "INCAR." + KindName(k)
  }

  /** The `cal_setting` of a custom property calculation: the switches
      `f`, the overrides of `a` and, when the INCAR text is non-empty,
      `input_prop` naming the file that receives it. */
  function CalSetting(k: Kind, f: Flags, a: Advance): (r: Built)
    ensures Truthy(a.incar) ==> r.fields == WithTolerances(f, a.tolerances) + [("input_prop", Str(IncarFile(k)))]
    ensures !Truthy(a.incar) ==> r.fields == WithTolerances(f, a.tolerances)
    ensures r.files == if Truthy(a.incar) then [Emitted(IncarFile(k), a.incar.value)] else []
  {
    ToleranceKeysOf(f, a.tolerances);
    WithInputProp(WithTolerances(f, a.tolerances), a.incar, IncarFile(k))
  }

  function Custom(o: Options, k: Kind): bool {
    match k
    case Eos => o.eos.custom
    case Elastic => o.elastic.custom
    case Surface => o.surface.custom
    case Interstitial => o.interstitial.custom
    case Vacancy => o.vacancy.custom
    case Gamma => o.gamma.custom
    case Phonon => false
  }

  /** The advanced group of kind `k`; phonon has none, only its INCAR text. */
  function AdvanceOf(o: Options, k: Kind): Advance
    requires k != Phonon
  {
    match k
    case Eos => o.eos.advance
    case Elastic => o.elastic.advance
    case Surface => o.surface.advance
    case Interstitial => o.interstitial.advance
    case Vacancy => o.vacancy.advance
    case Gamma => o.gamma.advance
  }

  /** The switches copied into `cal_setting`: the elastic builder takes the
      EOS group's switches, every other kind its own. */
  function FlagsOf(o: Options, k: Kind): Flags
    requires k != Phonon
  {
    if k == Elastic then o.eos.advance.flags else AdvanceOf(o, k).flags
  }

  function Selected(o: Options, k: Kind): bool {
    match k
    case Eos => o.eos.select
    case Elastic => o.elastic.select
    case Surface => o.surface.select
    case Interstitial => o.interstitial.select
    case Vacancy => o.vacancy.select
    case Gamma => o.gamma.select
    case Phonon => o.phonon.select
  }

  /** The geometry fields of kinds eos to gamma, in the builder's key order;
      the elastic entry carries the moduli settings and the gamma entry puts
      `add_fix` before `cal_type`. */
  function Geometry(o: Options, k: Kind): (r: seq<Field>)
    requires k != Phonon
    ensures "cal_setting" !in Keys(r)
  {
    match k
    case Eos => EosFields(o.eos.params)
    case Elastic =>
      KeysAppend(ElasticFields(o.elastic.params), ModuliFields(o.moduli));
      ElasticFields(o.elastic.params) + ModuliFields(o.moduli)
    case Surface => SurfaceFields(o.surface.params)
    case Interstitial => InterstitialFields(o.interstitial.params)
    case Vacancy => VacancyFields(o.vacancy.params)
    case Gamma =>
      var p := o.gamma.params;
      KeysAppend(GammaGeometry(p), [AddFixField(p), CalTypeField(p.calType)]);
      GammaGeometry(p) + [AddFixField(p), CalTypeField(p.calType)]
  }

  /** One property entry; none of them can raise. */
  function Entry(o: Options, k: Kind): (r: Result<Built>)
    ensures r.Success? && Tagged(r.value.fields, k)
  {
    match k
    case Phonon =>
      var e := PhononEntry(o.phonon.params, Some(ApproachName(o.phonon.approach)), o.phonon.incar, IncarFile(Phonon));
      Success(e)
    case _ =>
      CustomEntry(k, Geometry(o, k), Custom(o, k), Success(CalSetting(k, FlagsOf(o, k), AdvanceOf(o, k))))
  }

  function Selector(o: Options): Kind -> bool {
    k => Selected(o, k)
  }

  function Builder(o: Options): Kind -> Result<Built> {
    k => Entry(o, k)
  }

  /** `get_properties`. */
  function Properties(o: Options): Result<Assembly.Collected> {
    Assembly.Collect(AllKinds, Selector(o), Builder(o))
  }

  /** `get_parameter_dict`. */
  function ParameterDict(o: Options): Result<Built> {
    Assembly.ParameterDict(Success(Interaction(o)), Success(Relaxation(o)), Properties(o))
  }

  /** The selected kinds, written out flag by flag in the builder's order. */
  function SelectedKinds(o: Options): seq<Kind> {
    Assembly.Pick(o.eos.select, Eos) + (Assembly.Pick(o.elastic.select, Elastic)
    + (Assembly.Pick(o.surface.select, Surface) + (Assembly.Pick(o.interstitial.select, Interstitial)
    + (Assembly.Pick(o.vacancy.select, Vacancy) + (Assembly.Pick(o.gamma.select, Gamma)
    + Assembly.Pick(o.phonon.select, Phonon))))))
  }

  /** The interaction holds exactly the engine tag, the INCAR file name, the
      potential prefix and the potential map, and writes nothing. */
  lemma InteractionShape(o: Options)
    ensures Keys(Interaction(o).fields) == ["type", "incar", "potcar_prefix", "potcars"]
    ensures Get(Interaction(o).fields, "type") == Some(Str("vasp"))
    ensures Get(Interaction(o).fields, "incar") == Some(Str(Paths.Name(o.incar)))
    ensures Get(Interaction(o).fields, "potcar_prefix") == Some(Str("."))
    ensures Get(Interaction(o).fields, "potcars") == Some(StrDict(o.potcarMap))
    ensures Interaction(o).files == []
  {
    var f := Interaction(o).fields;
    GetAt(f, 1);
    GetAt(f, 2);
    GetAt(f, 3);
  }

  /** `cal` holds the switches of `f` and, for each override of `t`, its
      text when the field is non-empty and nothing otherwise. */
  predicate Carries(cal: seq<Field>, f: Flags, t: Tolerances) {
    && Get(cal, "kgamma") == Some(Bool(f.kgamma))
    && Get(cal, "relax_pos") == Some(Bool(f.relaxPos))
    && Get(cal, "relax_shape") == Some(Bool(f.relaxShape))
    && Get(cal, "relax_vol") == Some(Bool(f.relaxVol))
    && Get(cal, "ediff") == Override(t.ediff)
    && Get(cal, "ediffg") == Override(t.ediffg)
    && Get(cal, "encut") == Override(t.encut)
    && Get(cal, "kspacing") == Override(t.kspacing)
  }

  /** The switch-and-override block: the four switches, then each override
      exactly when it is set, each with its value. */
  lemma ToleranceContents(f: Flags, t: Tolerances)
    ensures Keys(WithTolerances(f, t)) == FlagKeys + ToleranceKeys(t)
    ensures "input_prop" !in Keys(WithTolerances(f, t))
    ensures Carries(WithTolerances(f, t), f, t)
  {
    ToleranceKeysOf(f, t);
    SwitchValues(f, t);
    OverrideLookup(f, t);
  }

  /** Appending `input_prop` leaves the switches and overrides alone. */
  lemma CarriesKept(cal: seq<Field>, file: string, f: Flags, t: Tolerances)
    requires Carries(cal, f, t)
    ensures Carries(cal + [("input_prop", Str(file))], f, t)
  {
    var p := [("input_prop", Str(file))];
    GetSkip(cal, p, "kgamma");
    GetSkip(cal, p, "relax_pos");
    GetSkip(cal, p, "relax_shape");
    GetSkip(cal, p, "relax_vol");
    GetSkip(cal, p, "ediff");
    GetSkip(cal, p, "ediffg");
    GetSkip(cal, p, "encut");
    GetSkip(cal, p, "kspacing");
  }

  /** The relaxation holds only `cal_setting`: the relaxation switches, and
      each override exactly when its field is non-empty. */
  lemma RelaxationShape(o: Options)
    ensures Keys(Relaxation(o).fields) == ["cal_setting"]
    ensures Get(Relaxation(o).fields, "cal_setting") == Some(Object(WithTolerances(o.relaxFlags, o.relaxTolerances)))
    ensures Keys(WithTolerances(o.relaxFlags, o.relaxTolerances)) == FlagKeys + ToleranceKeys(o.relaxTolerances)
    ensures Carries(WithTolerances(o.relaxFlags, o.relaxTolerances), o.relaxFlags, o.relaxTolerances)
    ensures Relaxation(o).files == []
  {
    ToleranceContents(o.relaxFlags, o.relaxTolerances);
  }

  /** A property `cal_setting` holds the switches `f` and the overrides of
      `a`, then `input_prop` naming the INCAR file exactly when the INCAR
      text is non-empty. */
  lemma CalSettingContents(k: Kind, f: Flags, a: Advance)
    ensures Keys(CalSetting(k, f, a).fields) == FlagKeys + ToleranceKeys(a.tolerances) + PresentKey("input_prop", a.incar)
    ensures Get(CalSetting(k, f, a).fields, "input_prop") == if Truthy(a.incar) then Some(Str(IncarFile(k))) else None
    ensures Carries(CalSetting(k, f, a).fields, f, a.tolerances)
  {
    var base := WithTolerances(f, a.tolerances);
    ToleranceContents(f, a.tolerances);
    if Truthy(a.incar) {
      var prop := [("input_prop", Str(IncarFile(k)))];
      KeysAppend(base, prop);
      GetAppend(base, prop, "input_prop");
      CarriesKept(base, IncarFile(k), f, a.tolerances);
    } else {
      GetNone(base, "input_prop");
    }
  }

  /** For eos to gamma, `cal_setting` is present exactly when the custom
      switch is on, and is then built from the switches of `FlagsOf` and the
      kind's own advanced group; the INCAR file is written exactly when the
      switch is on and the text is non-empty. */
  lemma CalSettingShape(o: Options, k: Kind)
    requires k != Phonon
    ensures (Get(Entry(o, k).value.fields, "cal_setting").Some? <==> Custom(o, k))
    ensures Custom(o, k) ==>
      Get(Entry(o, k).value.fields, "cal_setting") == Some(Object(CalSetting(k, FlagsOf(o, k), AdvanceOf(o, k)).fields))
    ensures Entry(o, k).value.files ==
      if Custom(o, k) && Truthy(AdvanceOf(o, k).incar) then [Emitted(IncarFile(k), AdvanceOf(o, k).incar.value)] else []
  {
    var entry := Tag(k) + Geometry(o, k);
    EntryFields(o, k);
    KeysAppend(Tag(k), Geometry(o, k));
    GetAppend(entry, CalSettingField(o, k), "cal_setting");
    if !Custom(o, k) {
      GetNone(entry, "cal_setting");
    }
  }

  /** The elastic `cal_setting` takes its switches from the EOS advanced
      group and its overrides from the elastic group: the elastic group's
      own switches have no effect. */
  lemma ElasticUsesEosFlags(o: Options, f: Flags)
    ensures Entry(o.(elastic := o.elastic.(advance := o.elastic.advance.(flags := f))), Elastic) == Entry(o, Elastic)
    ensures o.elastic.custom ==>
      var cal := CalSetting(Elastic, o.eos.advance.flags, o.elastic.advance).fields;
      && Get(Entry(o, Elastic).value.fields, "cal_setting") == Some(Object(cal))
      && Carries(cal, o.eos.advance.flags, o.elastic.advance.tolerances)
  {
    CalSettingShape(o, Elastic);
    CalSettingContents(Elastic, o.eos.advance.flags, o.elastic.advance);
  }

  /** The elastic entry carries the three moduli settings right after
      `cal_type`, with the form's values. */
  lemma ElasticModuli(o: Options)
    ensures CarriesModuli(Entry(o, Elastic).value.fields, o.moduli)
  {
    EntryFields(o, Elastic);
    ModuliKept(o.elastic.params, o.moduli, CalSettingField(o, Elastic));
  }

  /** The `cal_setting` pair of kind `k`, present when its custom switch is on. */
  function CalSettingField(o: Options, k: Kind): seq<Field> {
    if Custom(o, k) then [("cal_setting", Object(CalSetting(k, FlagsOf(o, k), AdvanceOf(o, k)).fields))] else []
  }

  /** An eos-to-gamma entry is the tag, the geometry and the optional
      `cal_setting`. */
  lemma EntryFields(o: Options, k: Kind)
    requires k != Phonon
    ensures Entry(o, k).value.fields == Tag(k) + Geometry(o, k) + CalSettingField(o, k)
  {
  }

  /** The phonon entry carries `approach` and always `cal_setting`, which
      names `INCAR.phonon` exactly when the phonon INCAR text is non-empty. */
  lemma PhononShape(o: Options)
    ensures Get(Entry(o, Phonon).value.fields, "approach") == Some(Str(ApproachName(o.phonon.approach)))
    ensures Get(Entry(o, Phonon).value.fields, "cal_setting") ==
      Some(Object(if Truthy(o.phonon.incar) then [("input_prop", Str(IncarFile(Phonon)))] else []))
    ensures Entry(o, Phonon).value.files ==
      if Truthy(o.phonon.incar) then [Emitted(IncarFile(Phonon), o.phonon.incar.value)] else []
  {
    PhononEntryShape(o.phonon.params, Some(ApproachName(o.phonon.approach)), o.phonon.incar, IncarFile(Phonon));
  }

  /** Visiting the fixed kind order with the form's select switches picks
      exactly the selected kinds. */
  lemma ChosenKinds(o: Options)
    ensures Assembly.Chosen(AllKinds, Selector(o)) == SelectedKinds(o)
  {
    Assembly.ChosenAllKinds(Selector(o));
  }

  /** `get_properties` never raises and returns one entry per selected kind,
      in the fixed kind order, each tagged with its kind. */
  lemma PropertiesSpec(o: Options)
    ensures Properties(o).Success?
    ensures |Properties(o).value.items| == |SelectedKinds(o)|
    ensures forall i :: 0 <= i < |SelectedKinds(o)| ==>
      Properties(o).value.items[i].Object? && Tagged(Properties(o).value.items[i].fields, SelectedKinds(o)[i])
  {
    ChosenKinds(o);
    var r := Properties(o);
    var ch := SelectedKinds(o);
    forall i | 0 <= i < |ch|
      ensures r.value.items[i].Object? && Tagged(r.value.items[i].fields, ch[i])
    {
      assert r.value.items[i] == Object(Entry(o, ch[i]).value.fields);
    }
  }

  /** The document never fails; it has the structures glob, the interaction
      and the relaxation, and `properties` exactly when some kind is
      selected. */
  lemma ParameterDictShape(o: Options)
    ensures ParameterDict(o).Success?
    ensures Keys(ParameterDict(o).value.fields) ==
      ["structures", "interaction", "relaxation"] + (if |SelectedKinds(o)| > 0 then ["properties"] else [])
  {
    PropertiesSpec(o);
  }
}
