# APEX Bohrium front ends: a Dafny model

The repository is a web-form front end to the APEX alloy-property workflow.
It has one front end per simulation engine: LAMMPS, VASP and ABACUS. Each
front end reads its form and then does four things:

- It stages every uploaded configuration as
  `workdir/returns/conf.NNNNNN/POSCAR`.
- It builds the global configuration (`get_global_config`). This holds the
  workflow server, the storage settings, the Bohrium account and the machine.
- It builds the parameter document (`get_parameter_dict`). The document holds
  the `structures` glob, the `interaction`, the `relaxation` and, when any
  property is selected, a `properties` list. There is one entry per selected
  kind (eos, elastic, surface, interstitial, vacancy, gamma, phonon), always
  in that order.
- When parameter files are uploaded, it uses them instead of the form's
  document. Each file's `structures` entry is first overwritten with the
  glob.

The model describes these documents as JSON values with Python dict
semantics: keys keep their insertion order, and assigning an existing key
keeps that key's position. Every builder is a pure function from the form to
a `Result`, or to a `Built` when it cannot fail. A builder that raises in the
Python code is a `Failure` carrying the error it raises. The files a builder writes (`INCAR.<kind>`,
`INPUT.<kind>`, `custom_<kind>_in.lammps`) are returned next to the document
as `Emitted` values.

Several builders read form fields that their form does not declare, so in
the code they always raise. The model keeps these branches as the code has
them, as failures:

- The LAMMPS elastic builder reads `conventional`, which the LAMMPS form
  does not declare. As a result, LAMMPS `get_properties` fails whenever
  elastic is selected.
- The ABACUS custom-calculation branches of elastic to gamma read
  `<kind>_ediff`, which the ABACUS form does not declare.
- The ABACUS relaxation reads `relax_input`, which the form does not
  declare. This happens whenever the INPUT-settings mapping is non-empty.
- The ABACUS EOS branch calls `.items()` on the INPUT text, which is not a
  mapping. This happens when EOS is selected, its custom switch is on and
  its INPUT-settings mapping is non-empty.

Files:

- `results.dfy`: `Option`, `Error` and `Result`.
- `json.dfy`: JSON values and ordered-dict updates.
- `decimal.dfy`: `%06d` padding and Python's `int()` on text.
- `paths.dfy`: `Path(p).name`.
- `forms.dfy`: the field groups shared by the three forms, and the entry
  skeletons.
- `assembly.dfy`: the engine-independent `get_properties` and
  `get_parameter_dict`.
- `lammps.dfy`, `vasp.dfy`, `abacus.dfy`: the three front ends.
- `global_config.dfy`: `get_global_config`.
- `workdir.dfy`: staging, the parameter-file rewrite, and the run up to
  submission.

## Model

| member | source | states |
|---|---|---|
| Json.Put | lmp_runner.py:319 | Assigning a key replaces its value in place when the key is present and appends it otherwise. The new value is then found under the key, and every other key keeps its value. |
| Json.PutOpt | abacus_runner.py:62-63 | The `if x: d[k] = x` idiom. The key is added exactly when the value is present, and no other key changes. |
| Json.PutSame | lmp_runner.py:319 | Assigning a key the value it already holds leaves the document unchanged. |
| Json.PutTwice | lmp_runner.py:319 | Assigning the same key and value twice is the same as assigning them once. |
| Json.GetSkip | lmp_runner.py:67 | Appending fields that lack a key does not change that key's lookup. |
| Decimal.PaddedRoundTrip | lmp_runner.py:299 | The `%06d` text of a counter is all digits and reads back as the counter. |
| Decimal.PaddedLength | lmp_runner.py:299 | `%06d` text is at least six characters long, and exactly six exactly when the counter is below 10^6. |
| Decimal.PyIntAccepts | lmp_runner.py:34 | `int(text)` succeeds exactly when the stripped text is a signed run of digits, with single underscores allowed between digits, and has at most 4300 digits. Beyond that limit `int()` raises ValueError. |
| Decimal.PyIntRoundTrip | lmp_runner.py:34 | `int()` of the decimal digits of `n` is `n` when there are at most 4300 digits. With more digits it raises ValueError. |
| Decimal.DecimalWithinLimit | lmp_runner.py:34 | The decimal text of `n` fits the 4300-digit limit exactly when `n` is below 10^4300. |
| Decimal.PyIntNegativeRoundTrip | lmp_runner.py:34 | `int()` of `-` followed by the digits of `n` is `-n` when there are at most 4300 digits, and raises ValueError otherwise. The sign does not count as a digit. |
| Decimal.PyIntNeedsDigit | lmp_runner.py:34 | Text without any digit is rejected with ValueError. |
| Decimal.PyIntKeepsSeparator | lmp_runner.py:34 | A leading U+001C, which `str.isspace()` accepts, is not stripped by `int()`, so the text is rejected. |
| Decimal.PyIntStripsAsciiSpace | lmp_runner.py:34 | A leading tab and a trailing newline are stripped before the digits are read. |
| Decimal.PyIntStripsNoBreakSpace | lmp_runner.py:34 | A leading no-break space, white space outside ASCII, is stripped before the digits are read. |
| Paths.NameOfJoin | lmp_runner.py:59-60 | `Path(d / n).name` is `n` for a plain file name `n`. |
| Paths.NameOfPlain | vasp_runner.py:58 | A plain file name is its own `Path.name`. |
| Assembly.Collect | lmp_runner.py:86-269 | The property list has one entry per selected kind, in visiting order, each the object its builder returns. The list succeeds exactly when every selected builder succeeds. |
| Assembly.CollectError | lmp_runner.py:86-269 | A failed property list carries the error of the first selected kind whose builder fails. |
| Assembly.CollectFirstError | abacus_runner.py:82-305 | The property list fails exactly when the first-failure reference definition `FirstError` finds a failure, and it fails with that error. |
| Assembly.ChosenMembers | lmp_runner.py:88 | A kind is in the property list's kinds exactly when it is visited and selected. |
| Assembly.ChosenAllKinds | lmp_runner.py:86-269 | The fixed visiting order picks the selected kinds from eos to phonon, each at most once. |
| Assembly.ParameterDict | lmp_runner.py:272-281 | The document fails exactly when a builder fails, with the first error in evaluation order. It holds `structures`, `interaction`, `relaxation`, and `properties` exactly when the list is non-empty. |
| Assembly.WithProperties | lmp_runner.py:278-279 | `properties` is added, after the three fixed keys, exactly when the list is non-empty. The fixed keys keep their values. |
| Assembly.ApplyAppend | lmp_runner.py:109-110 | Writing files in two batches is the same as writing them all in order. |
| Assembly.ApplyTwice | lmp_runner.py:278-279 | Repeating a batch of file writes leaves the directory as one batch does. |
| Assembly.ParameterDictWrites | lmp_runner.py:278-279 | `get_properties` runs twice, so its files are written twice. The directory is the same as after a single run. |
| Forms.KindNameInjective | lmp_runner.py:90 | Distinct kinds have distinct `type` tags and file suffixes. |
| Forms.CustomEntry | lmp_runner.py:98-112 | An entry is the tag, then the geometry, then `cal_setting` exactly when the custom switch is on. It fails only when the custom `cal_setting` fails, and it is tagged with its kind with `skip` false. |
| Forms.PhononEntryShape | vasp_runner.py:289-309 | A phonon entry's keys are the tag, the phonopy settings and `cal_setting`. `approach` holds the engine's approach when the engine has one. `cal_setting` is always present and names the input file exactly when the text is non-empty, which is also exactly when that file is written. |
| Forms.AddFixKept | lmp_runner.py:214-231 | When the gamma geometry ends with `cal_type` and `add_fix`, `add_fix` holds the three switches whatever follows. |
| Forms.ModuliKept | vasp_runner.py:121-131 | An elastic entry with moduli settings has them as keys six to eight, with their values, whatever follows. |
| Lammps.InteractionShape | lmp_runner.py:55-68 | `model` is the list of file names for several potentials and the bare name for one. An empty upload list raises IndexError. `in_lammps` and its file appear exactly when the relaxation input text is non-empty. |
| Lammps.CalSettingShape | lmp_runner.py:98-111 | For eos and surface to gamma (the elastic builder raises first, see `Lammps.Entry`), `cal_setting` appears exactly when the custom switch is on. It holds the seven minimisation keys, plus `input_prop` and its file exactly when the input text is non-empty. |
| Lammps.CalSettingContents | lmp_runner.py:99-111 | A property `cal_setting` is the seven minimisation keys, then `input_prop` naming `custom_<kind>_in.lammps` exactly when the input text is non-empty. |
| Lammps.PhononCalSetting | lmp_runner.py:248-267 | The phonon `cal_setting` is always present, and is empty unless the phonon input text is non-empty. |
| Lammps.AddFixMirrors | lmp_runner.py:226-230 | `add_fix` holds "true"/"false" for the x, y and z switches, in that order. |
| Lammps.Entry | lmp_runner.py:114-124 | The elastic builder always raises AttributeError on the undeclared `conventional`. Every other entry succeeds and is tagged with its kind. |
| Lammps.PropertiesFailure | lmp_runner.py:86-269 | `get_properties` fails exactly when elastic is selected, and then with the `conventional` error. |
| Lammps.PropertiesSpec | lmp_runner.py:86-269 | On success there is one entry per selected kind, in the fixed order, each tagged with its kind. |
| Lammps.ParameterDictShape | lmp_runner.py:272-281 | The document fails exactly when no potential is uploaded or elastic is selected. Otherwise its keys are the three fixed ones, plus `properties` exactly when some kind is selected. |
| Vasp.WithTolerances | vasp_runner.py:67-80 | The relaxation block is the four switches, then each of ediff, ediffg, encut and kspacing exactly when its field is non-empty, in that order. |
| Vasp.SetOverride | vasp_runner.py:73-74 | One `if x: cal["x"] = x` step on a block without `x` appends the pair exactly when the field is non-empty. |
| Vasp.InteractionShape | vasp_runner.py:55-62 | The interaction is the engine tag, the INCAR file name, the `.` potential prefix and the potential map. |
| Vasp.RelaxationShape | vasp_runner.py:65-81 | The relaxation has only `cal_setting`. It carries the relaxation switches and each non-empty override with its value. |
| Vasp.CalSettingContents | vasp_runner.py:98-117 | A property `cal_setting` carries its switches and overrides, plus `input_prop` naming `INCAR.<kind>` exactly when the INCAR text is non-empty. |
| Vasp.CalSettingShape | vasp_runner.py:98-117 | For eos to gamma, `cal_setting` appears exactly when the custom switch is on, and the INCAR file is written exactly when that switch is on and the text is non-empty. |
| Vasp.ElasticUsesEosFlags | vasp_runner.py:132-138 | The elastic `cal_setting` takes its switches from the EOS group and its overrides from the elastic group. The elastic group's own switches have no effect. |
| Vasp.ElasticModuli | vasp_runner.py:121-131 | The elastic entry carries `conventional`, `ieee` and `modulus_type` after `cal_type`, with the form's values. |
| Vasp.PhononShape | vasp_runner.py:289-309 | The phonon entry carries `approach` and always `cal_setting`, which names `INCAR.phonon` exactly when the phonon INCAR text is non-empty. |
| Vasp.PropertiesSpec | vasp_runner.py:84-311 | `get_properties` never fails. It returns one entry per selected kind, in the fixed order, each tagged with its kind. |
| Vasp.ParameterDictShape | vasp_runner.py:314-323 | The document never fails. `properties` appears exactly when some kind is selected. |
| Abacus.InteractionShape | abacus_runner.py:54-64 | The interaction holds the engine tag, the INPUT file name, the `.` potential prefix, the potential and orbital maps, and `deepks_desc` exactly when the DeepKS map is non-empty. |
| Abacus.RelaxationShape | abacus_runner.py:67-79 | The relaxation fails exactly when the INPUT-settings mapping is non-empty, on the undeclared `relax_input`. Otherwise it is the switches, then `K_POINTS` exactly when the mesh is non-empty. |
| Abacus.WithKPoints | abacus_runner.py:77-78 | `K_POINTS` is present, with the mesh, exactly when the mesh is non-empty. |
| Abacus.EosShape | abacus_runner.py:95-109 | The EOS entry fails exactly when it is custom and the INPUT-settings mapping is non-empty. A custom entry otherwise carries the switches, `K_POINTS` when the mesh is set, and `input_prop` when the INPUT text is non-empty. |
| Abacus.EosCalContents | abacus_runner.py:96-109 | The EOS `cal_setting` is the switches, then `K_POINTS` when the mesh is non-empty, then `input_prop` when the INPUT text is non-empty. |
| Abacus.CustomBranchBroken | abacus_runner.py:121-128 | For elastic to gamma, the entry fails exactly when the custom switch is on, with the `<kind>_ediff` AttributeError. Otherwise it has no `cal_setting`. |
| Abacus.ElasticWithoutModuli | abacus_runner.py:113-120 | The elastic entry omits `conventional`, `ieee` and `modulus_type`. |
| Abacus.GammaKeyOrder | abacus_runner.py:243-260 | The gamma entry puts `add_fix` before `cal_type`. |
| Abacus.PhononShape | abacus_runner.py:284-303 | The phonon entry has no `approach`. Its `cal_setting` names `INPUT.phonon` exactly when the phonon input text is non-empty. |
| Abacus.Entry | abacus_runner.py:82-305 | An entry fails exactly when its builder's broken branch is reached, with that branch's error. Otherwise it is tagged with its kind. |
| Abacus.ExpectedIsFirst | abacus_runner.py:82-305 | The first-failure reference over the fixed kind order equals the error read off the form switch by switch. |
| Abacus.PropertiesFailure | abacus_runner.py:82-305 | `get_properties` fails exactly when some selected kind reaches a broken branch, with the error of the first such kind in eos-to-gamma order. |
| Abacus.PropertiesSpec | abacus_runner.py:82-305 | On success there is one entry per selected kind, in the fixed order, each tagged with its kind. |
| Abacus.ParameterDictShape | abacus_runner.py:308-317 | The document fails exactly when the relaxation or the properties fail, the relaxation's error first. Otherwise `properties` appears exactly when some kind is selected. |
| GlobalConfig.Config | lmp_runner.py:10-52 | The configuration has the ten top-level keys in the source's order. |
| GlobalConfig.BohriumConfig | abacus_runner.py:22-26 | `bohrium_config` has `project_id` as well as `projectId` exactly for the LAMMPS and VASP front ends. |
| GlobalConfig.ConfigFailure | lmp_runner.py:34 | The configuration fails exactly when the stripped project id is not an integer literal of at most 4300 digits, with the error naming the project id. |
| GlobalConfig.ProgramId | lmp_runner.py:28-47 | On success, `machine.remote_profile.program_id` is the integer the project id denotes, and `is_bohrium_dflow` is true. |
| GlobalConfig.MachineLookup | lmp_runner.py:28-47 | `machine.remote_profile.program_id` holds the converted project id, and `is_bohrium_dflow` is true. |
| GlobalConfig.ProgramIdRoundTrip | lmp_runner.py:34 | A project id written as the digits of `n` is accepted exactly when it has at most 4300 digits, which is when `n` is below 10^4300. `program_id` is then `n`. |
| GlobalConfig.BohriumProjectId | vasp_runner.py:22-27 | `projectId` is always the project-id text. `project_id` repeats it for LAMMPS and VASP and is absent for ABACUS. |
| Workdir.StageConfigurations | lmp_runner.py:296-303 | Configuration `i` is copied to `returns/conf.<i as %06d>/POSCAR`, in upload order, one copy per configuration. |
| Workdir.ConfDirInjective | vasp_runner.py:338-345 | Distinct counters give distinct directories, so no configuration overwrites another. |
| Workdir.ConfDirMatchesGlob | abacus_runner.py:332-339 | Every staged directory matches the `returns/conf.*` glob that the parameter document names. |
| Workdir.ConfDirWidth | lmp_runner.py:299 | The directory name has exactly six digits exactly when the counter is below one million. |
| Workdir.Rewrite | lmp_runner.py:317-319 | The rewrite fails with TypeError exactly when the loaded file is not an object. |
| Workdir.RewriteSpec | lmp_runner.py:319 | The rewrite sets `structures` to the glob and keeps every other key and its value. The key order is kept when `structures` was present, and `structures` is appended otherwise. |
| Workdir.RewriteIdempotent | vasp_runner.py:364 | Rewriting a rewritten file changes nothing. |
| Workdir.GeneratedNeedsNoRewrite | lmp_runner.py:272-281 | A document the form builders produced already names the glob, so the rewrite leaves it as it is. |
| Workdir.RewriteAll | abacus_runner.py:362-371 | All parameter files are rewritten in order. This fails exactly when some file is not an object. |
| Workdir.RewriteAllError | abacus_runner.py:362-371 | A failed rewrite is always the TypeError of a non-object file. |
| Workdir.RunFailure | lmp_runner.py:311-329 | The run fails on the global configuration first. After that it fails on a non-object parameter file when there are files, and otherwise exactly when the form's document fails, with that document's error. |
| Workdir.RunSpec | lmp_runner.py:296-329 | A successful run submits one rewritten document per parameter file, or else the single form document, together with the configuration. The configurations are staged in upload order. The input files the builders wrote are carried along when the form is used, and there are none with parameter files. |
| Workdir.VaspFormRun | vasp_runner.py:356-374 | With no parameter files, the VASP run built from the real global configuration and form document fails exactly when `int()` rejects the project id. Otherwise it submits that form document and the files its builders wrote. |

## Left out

- File-system plumbing is not modelled: removing and creating the work
  directory, `chdir`, copying the potential, INCAR, INPUT, orbital and
  DeepKS files into it, and the final `copytree` to the output directory.
  Only the configuration copies are modelled, as `Copy` values.
- Files that builders write before a later failure are not modelled. A
  failed `Result` carries no files.
- `submit_workflow` is an external call. The model stops at the
  `Submission` value, which holds the parameter documents and the global
  configuration handed to it. The other arguments are not modelled: the
  `labels` value taken from the form, and the constant `work_dirs`
  (`['./']`) and `indicated_flow_type` (`None`).
- The JSON dump and reload (`json.dump` followed by `loadfn`) are taken as
  the identity. MSON object decoding in `loadfn` is not modelled.
- Writing the rewritten parameter files back to disk is not modelled. Only
  the rewritten values are.
- The command-line dispatcher that picks a front end, and the older
  single-file front end, are outside the modelled core.
- The form schemas are not modelled as behaviour: field bounds, defaults,
  UI visibility conditions and upload validation are left out. Form values
  arrive as datatype fields, and enumerations as their string values.
- Floats are opaque literals (`Json.Num`). No arithmetic is done on them.
- `dflow_labels.get_value()` is taken as a given JSON value.
- Decimal.PyIntAccepts: only ASCII digits are modelled; Python's `int()`
  also accepts other Unicode decimal digits. The white space stripped from
  both ends is the ASCII space, `\t \n \v \f \r`, and the non-ASCII
  characters `str.isspace()` accepts (U+0085, U+00A0, U+1680,
  U+2000 to U+200A, U+2028, U+2029, U+202F, U+205F, U+3000).
- Workdir.Run: the global configuration and the form document are
  parameters. Only `Workdir.VaspFormRun` ties them to `GlobalConfig.Config`
  and an engine's `ParameterDict`. For LAMMPS and ABACUS the run is stated
  for any such inputs, through `Workdir.RunFailure` and `Workdir.RunSpec`.
- Abacus.RelaxationShape: the contents of the undeclared `relax_input`
  mapping are not modelled, because the builder raises before reading them.
- Python's integers are unbounded, so no width or wrap-around applies to
  the counter or to the value of `program_id`. Converting the project id
  text with `int()` is bounded, by the default limit of 4300 digits
  (`Decimal.MaxStrDigits`).
- Decimal.PyInt: the digit limit is taken at its default. A limit changed
  with `sys.set_int_max_str_digits` or `PYTHONINTMAXSTRDIGITS` is not
  modelled. Neither are interpreters older than the limit, which convert
  text of any length. Over the limit the ValueError's message differs from
  that of a malformed literal; the model gives both the same error.
