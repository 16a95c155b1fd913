/** The vocabulary the three engine front ends share: the seven property
    kinds, the form values that the builders copy into the parameter
    document, the ordered key lists of the geometry part of every property
    entry, and the auxiliary input files a builder writes next to the
    document. */
module Forms {
  import opened Results
  import opened Json

  /** Python truthiness of an optional string, list or dict field: set and
      non-empty. */
  predicate Truthy<T>(o: Option<seq<T>>) {
    o.Some? && |o.value| > 0
  }

  /** `CalTypeOptions`: the kind of calculation run for one property. */
  datatype CalType = Relaxation | Static

  function CalTypeName(c: CalType): string {
    match c
    case Relaxation => "relaxation"
    case Static => "static"
  }

  /** `ModulusTypeOptions` of the elastic forms. */
  datatype ModulusType = Voigt | Reuss | Vrh

  function ModulusTypeName(m: ModulusType): string {
    match m
    case Voigt => "voigt"
    case Reuss => "reuss"
    case Vrh => "vrh"
  }

  /** The seven properties a user can select, in the order the builders
      visit them. */
  datatype Kind = Eos | Elastic | Surface | Interstitial | Vacancy | Gamma | Phonon

  function KindName(k: Kind): string {
    match k
    case Eos => "eos"
    case Elastic => "elastic"
    case Surface => "surface"
    case Interstitial => "interstitial"
    case Vacancy => "vacancy"
    case Gamma => "gamma"
    case Phonon => "phonon"
  }

  const AllKinds: seq<Kind> := [Eos, Elastic, Surface, Interstitial, Vacancy, Gamma, Phonon]

  /** The `type` tags are pairwise different, so an entry's tag names its kind. */
  lemma KindNameInjective(k: Kind, k': Kind)
    ensures KindName(k) == KindName(k') <==> k == k'
  {
  }

  /** An auxiliary input file written into the working directory. */
  datatype Emitted = Emitted(name: string, text: string)

  /** What a builder produces: the fields of one JSON object, in insertion
      order, and the files it wrote while building them, in write order. */
  datatype Built = Built(fields: seq<Field>, files: seq<Emitted>)

  /** The switches and the two form groups of one selectable property:
      `select_<kind>`, `custom_<kind>_calc`, the parameter group and the
      advanced group that the custom switch reveals. */
  datatype Property<P, A> = Property(select: bool, custom: bool, params: P, advance: A)

  datatype EosParams = EosParams(
    calType: CalType, volStart: Float, volEnd: Float, volStep: Float, volAbs: bool)

  datatype ElasticParams = ElasticParams(calType: CalType, normDeform: Float, shearDeform: Float)

  /** The moduli settings of the VASP and ABACUS elastic forms. */
  datatype Moduli = Moduli(conventional: bool, ieee: bool, modulusType: ModulusType)

  datatype SurfaceParams = SurfaceParams(
    calType: CalType, maxMiller: int, minSlabSize: Float, minVacuumSize: Float, pertXz: Float)

  datatype InterstitialParams = InterstitialParams(
    calType: CalType, supercellSize: seq<int>, insertEle: string)

  datatype VacancyParams = VacancyParams(calType: CalType, supercellSize: seq<int>)

  datatype GammaParams = GammaParams(
    calType: CalType, planeMiller: seq<int>, slipDirection: seq<int>,
    slipLength: Option<seq<Float>>, planeShift: Float, nSteps: int,
    supercellSize: seq<int>, vacuumSize: Float, addFixX: bool, addFixY: bool, addFixZ: bool)

  /** The phonopy settings; the switch that only reveals the advanced group
      in the form is not part of the record because no builder reads it. */
  datatype PhononParams = PhononParams(
    primitiveCell: bool, supercellSize: seq<int>, seekpathFromOriginal: bool,
    band: Option<string>, bandLabels: Option<string>, mesh: Option<string>,
    primitiveAxes: Option<string>, bandPoints: Option<string>, bandConnection: bool)

  function IntList(xs: seq<int>): (j: Json)
    ensures j.Array? && |j.items| == |xs|
    ensures forall i :: 0 <= i < |xs| ==> j.items[i] == Int(xs[i])
  {
    Array(seq(|xs|, i requires 0 <= i < |xs| => Int(xs[i])))
  }

  /** A list field whose default is None. */
  function FloatList(xs: Option<seq<Float>>): (j: Json)
    ensures xs.None? <==> j.Null?
    ensures xs.Some? ==> j.Array? && |j.items| == |xs.value|
  {
    match xs
    case None => Null
    case Some(v) => Array(seq(|v|, i requires 0 <= i < |v| => Num(v[i])))
  }

  /** A string field whose default is None. */
  function OptStr(s: Option<string>): (j: Json)
    ensures s.None? <==> j.Null?
    ensures s.Some? ==> j == Str(s.value)
  {
    match s
    case None => Null
    case Some(v) => Str(v)
  }

  /** A `Dict[String, Int]` form value. */
  function IntDict(m: seq<(string, int)>): (j: Json)
    ensures j.Object? && |j.fields| == |m|
    ensures forall i :: 0 <= i < |m| ==> j.fields[i] == (m[i].0, Int(m[i].1))
  {
    Object(seq(|m|, i requires 0 <= i < |m| => (m[i].0, Int(m[i].1))))
  }

  /** A `Dict[String, String]` form value. */
  function StrDict(m: seq<(string, string)>): (j: Json)
    ensures j.Object? && |j.fields| == |m|
    ensures forall i :: 0 <= i < |m| ==> j.fields[i] == (m[i].0, Str(m[i].1))
  {
    Object(seq(|m|, i requires 0 <= i < |m| => (m[i].0, Str(m[i].1))))
  }

  /** Every entry starts with its `type` tag and `"skip": false`. */
  function Tag(k: Kind): (r: seq<Field>)
    ensures Keys(r) == ["type", "skip"]
  {
    [("type", Str(KindName(k))), ("skip", Bool(false))]
  }

  /** An entry whose `type` tag names kind `k` and whose `skip` is false. */
  predicate Tagged(fields: seq<Field>, k: Kind) {
    Get(fields, "type") == Some(Str(KindName(k))) && Get(fields, "skip") == Some(Bool(false))
  }

  lemma TagFirst(k: Kind, rest: seq<Field>)
    ensures Tagged(Tag(k) + rest, k)
  {
    var f := Tag(k) + rest;
    assert f[0] == ("type", Str(KindName(k)));
    assert f[1..][0] == ("skip", Bool(false));
  }

  function CalTypeField(c: CalType): Field {
    ("cal_type", Str(CalTypeName(c)))
  }

  function EosFields(p: EosParams): (r: seq<Field>)
    ensures Keys(r) == ["vol_start", "vol_end", "vol_step", "vol_abs", "cal_type"]
  {
    [("vol_start", Num(p.volStart)), ("vol_end", Num(p.volEnd)), ("vol_step", Num(p.volStep)),
     ("vol_abs", Bool(p.volAbs)), CalTypeField(p.calType)]
  }

  function ElasticFields(p: ElasticParams): (r: seq<Field>)
    ensures Keys(r) == ["norm_deform", "shear_deform", "cal_type"]
  {
    [("norm_deform", Num(p.normDeform)), ("shear_deform", Num(p.shearDeform)),
     CalTypeField(p.calType)]
  }

  /** The three moduli settings some elastic entries carry after `cal_type`. */
  function ModuliFields(p: Moduli): (r: seq<Field>)
    ensures Keys(r) == ["conventional", "ieee", "modulus_type"]
  {
    [("conventional", Bool(p.conventional)), ("ieee", Bool(p.ieee)),
     ("modulus_type", Str(ModulusTypeName(p.modulusType)))]
  }

  /** The first eight keys of an elastic entry are the tag, the deformation
      settings, `cal_type` and the three moduli settings, and the moduli
      keys hold the values of `m`. */
  predicate CarriesModuli(fields: seq<Field>, m: Moduli) {
    && |Keys(fields)| >= 8
    && Keys(fields)[..8] ==
         ["type", "skip", "norm_deform", "shear_deform", "cal_type", "conventional", "ieee", "modulus_type"]
    && Get(fields, "conventional") == Some(Bool(m.conventional))
    && Get(fields, "ieee") == Some(Bool(m.ieee))
    && Get(fields, "modulus_type") == Some(Str(ModulusTypeName(m.modulusType)))
  }

  /** An elastic entry that carries the moduli settings has them right after
      `cal_type`, with their values, whatever follows. */
  lemma ModuliKept(p: ElasticParams, m: Moduli, more: seq<Field>)
    ensures CarriesModuli(Tag(Elastic) + (ElasticFields(p) + ModuliFields(m)) + more, m)
  {
    ModuliHead(p, m);
    ModuliAppend(Tag(Elastic) + (ElasticFields(p) + ModuliFields(m)), more, m);
  }

  lemma ModuliHead(p: ElasticParams, m: Moduli)
    ensures CarriesModuli(Tag(Elastic) + (ElasticFields(p) + ModuliFields(m)), m)
  {
    var head := Tag(Elastic) + (ElasticFields(p) + ModuliFields(m));
    KeysAppend(ElasticFields(p), ModuliFields(m));
    KeysAppend(Tag(Elastic), ElasticFields(p) + ModuliFields(m));
    GetAt(head, 5);
    GetAt(head, 6);
    GetAt(head, 7);
  }

  /** Appending fields keeps the moduli settings and the leading keys. */
  lemma ModuliAppend(fields: seq<Field>, more: seq<Field>, m: Moduli)
    requires CarriesModuli(fields, m)
    ensures CarriesModuli(fields + more, m)
  {
    KeysAppend(fields, more);
    assert Keys(fields + more)[..8] == Keys(fields)[..8];
    assert Keys(fields)[5] == "conventional" && Keys(fields)[6] == "ieee" && Keys(fields)[7] == "modulus_type";
    GetAppend(fields, more, "conventional");
    GetAppend(fields, more, "ieee");
    GetAppend(fields, more, "modulus_type");
  }


  function SurfaceFields(p: SurfaceParams): (r: seq<Field>)
    ensures Keys(r) == ["max_miller", "min_slab_size", "min_vacuum_size", "pert_xz", "cal_type"]
  {
    [("max_miller", Int(p.maxMiller)), ("min_slab_size", Num(p.minSlabSize)),
     ("min_vacuum_size", Num(p.minVacuumSize)), ("pert_xz", Num(p.pertXz)),
     CalTypeField(p.calType)]
  }

  function InterstitialFields(p: InterstitialParams): (r: seq<Field>)
    ensures Keys(r) == ["supercell_size", "insert_ele", "cal_type"]
  {
    [("supercell_size", IntList(p.supercellSize)), ("insert_ele", Str(p.insertEle)),
     CalTypeField(p.calType)]
  }

  function VacancyFields(p: VacancyParams): (r: seq<Field>)
    ensures Keys(r) == ["supercell_size", "cal_type"]
  {
    [("supercell_size", IntList(p.supercellSize)), CalTypeField(p.calType)]
  }

  /** The slip geometry of a gamma-line entry; the engines differ only in
      where `cal_type` and `add_fix` follow it. */
  function GammaGeometry(p: GammaParams): (r: seq<Field>)
    ensures Keys(r) == ["plane_miller", "slip_direction", "slip_length", "plane_shift",
                        "n_steps", "supercell_size", "vacuum_size"]
  {
    [("plane_miller", IntList(p.planeMiller)), ("slip_direction", IntList(p.slipDirection)),
     ("slip_length", FloatList(p.slipLength)), ("plane_shift", Num(p.planeShift)),
     ("n_steps", Int(p.nSteps)), ("supercell_size", IntList(p.supercellSize)),
     ("vacuum_size", Num(p.vacuumSize))]
  }

  /** A boolean written as the text `"true"` or `"false"`. */
  function Flag(b: bool): (j: Json)
    ensures j.Str? && (b <==> j.s == "true") && (!b <==> j.s == "false")
  {
    Str(if b then "true" else "false")
  }

  function AddFixField(p: GammaParams): (f: Field)
    ensures f.0 == "add_fix"
    ensures f.1.Array? && f.1.items == [Flag(p.addFixX), Flag(p.addFixY), Flag(p.addFixZ)]
  {
    ("add_fix", Array([Flag(p.addFixX), Flag(p.addFixY), Flag(p.addFixZ)]))
  }

  /** In a gamma entry whose geometry ends with `cal_type` and `add_fix`,
      `add_fix` holds the three switches whatever follows. */
  lemma AddFixKept(p: GammaParams, more: seq<Field>)
    ensures Get(Tag(Gamma) + (GammaGeometry(p) + [CalTypeField(p.calType), AddFixField(p)]) + more, "add_fix")
      == Some(Array([Flag(p.addFixX), Flag(p.addFixY), Flag(p.addFixZ)]))
  {
    var tail := [CalTypeField(p.calType), AddFixField(p)];
    var g := GammaGeometry(p) + tail;
    KeysAppend(GammaGeometry(p), tail);
    KeysAppend(Tag(Gamma), g);
    assert Keys(tail) == ["cal_type", "add_fix"];
    assert "add_fix" in Keys(Tag(Gamma) + g);
    GetAppend(Tag(Gamma) + g, more, "add_fix");
    GetAppend(Tag(Gamma), g, "add_fix");
    GetAppend(GammaGeometry(p), tail, "add_fix");
    GetAt(tail, 1);
  }

  /** The phonopy settings of a phonon entry, with the `approach` key after
      `primitive_cell` when the engine has one. */
  function PhononFields(p: PhononParams, approach: Option<string>): (r: seq<Field>)
    ensures approach.None? ==> Keys(r) == PhononKeys([])
    ensures approach.Some? ==> Keys(r) == PhononKeys(["approach"])
  {
    [("primitive_cell", Bool(p.primitiveCell))]
    + (if approach.Some? then [("approach", Str(approach.value))] else [])
    + [("supercell_size", IntList(p.supercellSize)),
       ("seekpath_from_original", Bool(p.seekpathFromOriginal)),
       ("BAND", OptStr(p.band)), ("BAND_LABELS", OptStr(p.bandLabels)), ("MESH", OptStr(p.mesh)),
       ("PRIMITIVE_AXES", OptStr(p.primitiveAxes)), ("BAND_POINTS", OptStr(p.bandPoints)),
       ("BAND_CONNECTION", Bool(p.bandConnection))]
  }

  function PhononKeys(approach: seq<string>): seq<string> {
    ["primitive_cell"] + approach
    + ["supercell_size", "seekpath_from_original", "BAND", "BAND_LABELS", "MESH",
       "PRIMITIVE_AXES", "BAND_POINTS", "BAND_CONNECTION"]
  }

  /** `cal["input_prop"] = file` plus the write of `text` to `file`, both only
      when the text field is non-empty. */
  function WithInputProp(cal: seq<Field>, text: Option<string>, file: string): (r: Built)
    requires "input_prop" !in Keys(cal)
    ensures Truthy(text) ==> r.fields == cal + [("input_prop", Str(file))]
    ensures Truthy(text) ==> r.files == [Emitted(file, text.value)]
    ensures !Truthy(text) ==> r == Built(cal, [])
  {
    if Truthy(text) then Built(Put(cal, "input_prop", Str(file)), [Emitted(file, text.value)])
    else Built(cal, [])
  }

  /** One entry of eos to gamma: the tag, the geometry fields and, when the
      custom switch is on, `cal_setting` from the advanced group. */
  function CustomEntry(k: Kind, fields: seq<Field>, custom: bool, cal: Result<Built>): (r: Result<Built>)
    requires "cal_setting" !in Keys(fields)
    ensures r.Failure? <==> custom && cal.Failure?
    ensures r.Failure? ==> r.error == cal.error
    ensures r.Success? && !custom ==> r.value == Built(Tag(k) + fields, [])
    ensures r.Success? && custom ==>
      r.value == Built(Tag(k) + fields + [("cal_setting", Object(cal.value.fields))], cal.value.files)
    ensures r.Success? ==> Tagged(r.value.fields, k)
  {
    var entry := Tag(k) + fields;
    TagFirst(k, fields);
    if !custom then Success(Built(entry, []))
    else
      var c :- cal;
      KeysAppend(Tag(k), fields);
      TagKept(entry, [("cal_setting", Object(c.fields))], k);
      Success(Built(Put(entry, "cal_setting", Object(c.fields)), c.files))
  }

  /** Appending pairs other than `type` and `skip` keeps an entry's tag. */
  lemma TagKept(fields: seq<Field>, more: seq<Field>, k: Kind)
    requires Tagged(fields, k)
    requires "type" !in Keys(more) && "skip" !in Keys(more)
    ensures Tagged(fields + more, k)
  {
    GetSkip(fields, more, "type");
    GetSkip(fields, more, "skip");
  }

  /** A phonon entry: `cal_setting` is always there, holding at most the
      input file. */
  function PhononEntry(p: PhononParams, approach: Option<string>, text: Option<string>, file: string): (r: Built)
    ensures r.fields == Tag(Phonon) + PhononFields(p, approach)
      + [("cal_setting", Object(if Truthy(text) then [("input_prop", Str(file))] else []))]
    ensures (r.files != []) == Truthy(text) && |r.files| <= 1
    ensures Truthy(text) ==> r.files[0] == Emitted(file, text.value)
    ensures Tagged(r.fields, Phonon)
  {
    var cal := WithInputProp([], text, file);
    TagFirst(Phonon, PhononFields(p, approach));
    TagKept(Tag(Phonon) + PhononFields(p, approach), [("cal_setting", Object(cal.fields))], Phonon);
    Built(Tag(Phonon) + PhononFields(p, approach) + [("cal_setting", Object(cal.fields))], cal.files)
  }

  /** A phonon entry's keys are the tag, the phonopy settings and
      `cal_setting`; `approach` holds the engine's approach when it has one,
      and `cal_setting` names the input file exactly when the text is
      non-empty, which is also exactly when that file is written. */
  lemma PhononEntryShape(p: PhononParams, approach: Option<string>, text: Option<string>, file: string)
    ensures Keys(PhononEntry(p, approach, text, file).fields) ==
      ["type", "skip"] + PhononKeys(if approach.Some? then ["approach"] else []) + ["cal_setting"]
    ensures Get(PhononEntry(p, approach, text, file).fields, "cal_setting") ==
      Some(Object(if Truthy(text) then [("input_prop", Str(file))] else []))
    ensures Get(PhononEntry(p, approach, text, file).fields, "approach") ==
      if approach.Some? then Some(Str(approach.value)) else None
    ensures PhononEntry(p, approach, text, file).files == if Truthy(text) then [Emitted(file, text.value)] else []
  {
    PhononEntryKeys(p, approach, text, file);
    PhononEntryLookups(p, approach, text, file);
  }

  lemma PhononEntryKeys(p: PhononParams, approach: Option<string>, text: Option<string>, file: string)
    ensures Keys(PhononEntry(p, approach, text, file).fields) ==
      ["type", "skip"] + PhononKeys(if approach.Some? then ["approach"] else []) + ["cal_setting"]
  {
    var fields := PhononFields(p, approach);
    var tail := [("cal_setting", Object(if Truthy(text) then [("input_prop", Str(file))] else []))];
    KeysAppend(Tag(Phonon), fields);
    KeysAppend(Tag(Phonon) + fields, tail);
  }

  lemma PhononEntryLookups(p: PhononParams, approach: Option<string>, text: Option<string>, file: string)
    ensures Get(PhononEntry(p, approach, text, file).fields, "cal_setting") ==
      Some(Object(if Truthy(text) then [("input_prop", Str(file))] else []))
    ensures Get(PhononEntry(p, approach, text, file).fields, "approach") ==
      if approach.Some? then Some(Str(approach.value)) else None
  {
    var fields := PhononFields(p, approach);
    var cal := Object(if Truthy(text) then [("input_prop", Str(file))] else []);
    PhononTailLookups(Tag(Phonon) + fields, cal);
    GetAppend(Tag(Phonon), fields, "approach");
    PhononApproach(p, approach);
  }

  /** Appending `cal_setting` to fields that lack it: it is found, and the
      other keys keep their lookups. */
  lemma PhononTailLookups(head: seq<Field>, cal: Json)
    requires "cal_setting" !in Keys(head)
    ensures Get(head + [("cal_setting", cal)], "cal_setting") == Some(cal)
    ensures Get(head + [("cal_setting", cal)], "approach") == Get(head, "approach")
  {
    var tail := [("cal_setting", cal)];
    assert Keys(tail) == ["cal_setting"];
    GetAppend(head, tail, "cal_setting");
    GetSkip(head, tail, "approach");
  }

  /** `approach` holds the engine's approach when it has one and is absent
      otherwise. */
  lemma PhononApproach(p: PhononParams, approach: Option<string>)
    ensures Get(PhononFields(p, approach), "approach") ==
      if approach.Some? then Some(Str(approach.value)) else None
  {
    var fields := PhononFields(p, approach);
    if approach.Some? {
      assert fields[1..][0] == ("approach", Str(approach.value));
    } else {
      GetNone(fields, "approach");
    }
  }
}
