/** `get_global_config` of the three front ends: the workflow-service and
    batch-system settings, copied from the form. The only computation is
    the conversion of the project id to an integer, which raises ValueError
    on text that is not an integer literal. */
module GlobalConfig {
  import opened Results
  import opened Json
  import Decimal

  /** The three front ends; they differ only in the image, the run command
      and whether `bohrium_config` repeats the project id as `project_id`. */
  datatype Engine = Lmp | Vasp | Abacus

  /** The form fields the configuration copies. `labels` is the value the
      labels field hands out, which this model does not compute. */
  datatype Settings = Settings(
    argoServer: string, k8sServer: string, token: string, labels: Json,
    storageEndpoint: string, storageRepository: string,
    username: string, ticket: string, projectId: string,
    jobType: string, platform: string, scassType: string,
    apexImage: string, runImage: string, groupSize: int, poolSize: int, runCommand: string)

  function DflowConfig(s: Settings): seq<Field> {
    [("host", Str(s.argoServer)), ("k8s_api_server", Str(s.k8sServer)),
     ("token", Str(s.token)), ("dflow_labels", s.labels)]
  }

  function S3Config(s: Settings): seq<Field> {
    [("endpoint", Str(s.storageEndpoint)), ("repo_key", Str(s.storageRepository))]
  }

  /** `bohrium_config`: the LAMMPS and VASP front ends also write the
      project id under `project_id`. */
  function BohriumConfig(e: Engine, s: Settings): (r: seq<Field>)
    ensures Keys(r) == ["username", "ticket", "projectId"] + (if e != Abacus then ["project_id"] else [])
  {
    [("username", Str(s.username)), ("ticket", Str(s.ticket)), ("projectId", Str(s.projectId))]
    + (if e != Abacus then [("project_id", Str(s.projectId))] else [])
  }

  function RemoteProfile(s: Settings, programId: int): seq<Field> {
    [("email", Str(s.username)), ("password", Str(s.ticket)), ("program_id", Int(programId)),
     ("input_data", Object([("job_type", Str(s.jobType)), ("platform", Str(s.platform)),
                            ("scass_type", Str(s.scassType))]))]
  }

  function Machine(s: Settings, programId: int): seq<Field> {
    [("batch_type", Str("Bohrium")), ("context_type", Str("Bohrium")),
     ("remote_profile", Object(RemoteProfile(s, programId)))]
  }

  const TopKeys: seq<string> :=
    ["dflow_config", "dflow_s3_config", "bohrium_config", "machine", "apex_image_name",
     "run_image_name", "group_size", "pool_size", "run_command", "is_bohrium_dflow"]

  /** `get_global_config`. The dump to disk and the reload are taken as the
      identity on these values. */
  function Config(e: Engine, s: Settings): (r: Result<seq<Field>>)
    ensures r.Success? ==> Keys(r.value) == TopKeys
  {
    var programId :- Decimal.PyInt(s.projectId);
    Success(Fields(e, s, programId))
  }

  /** The configuration once the project id has been converted. */
  function Fields(e: Engine, s: Settings, programId: int): (r: seq<Field>)
    ensures Keys(r) == TopKeys
  {
    [("dflow_config", Object(DflowConfig(s))), ("dflow_s3_config", Object(S3Config(s))),
     ("bohrium_config", Object(BohriumConfig(e, s))), ("machine", Object(Machine(s, programId))),
     ("apex_image_name", Str(s.apexImage)), ("run_image_name", Str(s.runImage)),
     ("group_size", Int(s.groupSize)), ("pool_size", Int(s.poolSize)),
     ("run_command", Str(s.runCommand)), ("is_bohrium_dflow", Bool(true))]
  }

  /** The configuration fails exactly when the stripped project id is not
      an integer literal within `int()`'s digit limit, with the error
      naming the project id as given. */
  lemma ConfigFailure(e: Engine, s: Settings)
    ensures Config(e, s).Failure? <==> !Decimal.Accepted(Decimal.Strip(s.projectId))
    ensures Config(e, s).Failure? ==> Config(e, s).error == NotAnInteger(s.projectId)
  {
    Decimal.PyIntAccepts(s.projectId);
  }

  /** On success, `program_id` under `machine.remote_profile` is the integer
      the project id denotes, and `is_bohrium_dflow` is true. */
  lemma ProgramId(e: Engine, s: Settings)
    ensures Config(e, s).Success? ==>
      && Get(Config(e, s).value, "machine") == Some(Object(Machine(s, Decimal.PyInt(s.projectId).value)))
      && Get(Machine(s, Decimal.PyInt(s.projectId).value), "remote_profile")
           == Some(Object(RemoteProfile(s, Decimal.PyInt(s.projectId).value)))
      && Get(RemoteProfile(s, Decimal.PyInt(s.projectId).value), "program_id")
           == Some(Int(Decimal.PyInt(s.projectId).value))
      && Get(Config(e, s).value, "is_bohrium_dflow") == Some(Bool(true))
  {
    if Config(e, s).Success? {
      MachineLookup(e, s, Decimal.PyInt(s.projectId).value);
    }
  }

  /** The machine section carries `program_id` under `remote_profile`. */
  lemma MachineLookup(e: Engine, s: Settings, v: int)
    ensures Get(Fields(e, s, v), "machine") == Some(Object(Machine(s, v)))
    ensures Get(Machine(s, v), "remote_profile") == Some(Object(RemoteProfile(s, v)))
    ensures Get(RemoteProfile(s, v), "program_id") == Some(Int(v))
    ensures Get(Fields(e, s, v), "is_bohrium_dflow") == Some(Bool(true))
  {
    GetAt(Fields(e, s, v), 3);
    GetAt(Fields(e, s, v), 9);
    GetAt(Machine(s, v), 2);
    GetAt(RemoteProfile(s, v), 2);
  }

  /** A project id written as the decimal digits of `n` is accepted
      exactly when it fits `int()`'s digit limit, that is when `n` is below
      10 to the power of the limit, and `program_id` is then `n`. */
  lemma ProgramIdRoundTrip(e: Engine, s: Settings, n: nat)
    requires s.projectId == Decimal.NatToDecimal(n)
    ensures Config(e, s).Success? <==> |s.projectId| <= Decimal.MaxStrDigits
    ensures Config(e, s).Success? <==> n < Decimal.Pow10(Decimal.MaxStrDigits)
    ensures Config(e, s).Success? ==>
      Get(RemoteProfile(s, Decimal.PyInt(s.projectId).value), "program_id") == Some(Int(n))
  {
    Decimal.PyIntRoundTrip(n);
    Decimal.DecimalWithinLimit(n);
    MachineLookup(e, s, n);
  }

  /** `bohrium_config` repeats the project id text under `project_id`
      exactly for the LAMMPS and VASP front ends. */
  lemma BohriumProjectId(e: Engine, s: Settings)
    ensures Get(BohriumConfig(e, s), "projectId") == Some(Str(s.projectId))
    ensures Get(BohriumConfig(e, s), "project_id") ==
      if e != Abacus then Some(Str(s.projectId)) else None
  {
    var r := BohriumConfig(e, s);
    GetAt(r, 2);
    if e != Abacus {
      GetAt(r, 3);
    } else {
      GetNone(r, "project_id");
    }
  }
}
