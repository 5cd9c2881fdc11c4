/** The field contract of the `Job` and `JobRequest` schemas: each field has a
    declared value type, may be required, and may have a default that loading
    fills in when the field is absent. Loading checks every declared field,
    reports every offending one, ignores undeclared keys, and otherwise yields
    a typed record. */
module Schemas {
  import opened Wrappers

  /** A value of the incoming payload. */
  datatype Value = Str(s: string) | Int(i: int) | Bool(b: bool) | Dict(d: map<string, Value>)

  /** The incoming key/value payload. */
  type Payload = map<string, Value>

  /** The declared type of a field. */
  datatype FieldType = StrField | IntField | BoolField | DictField

  predicate HasType(v: Value, t: FieldType)
  {
    match t
    case StrField => v.Str?
    case IntField => v.Int?
    case BoolField => v.Bool?
    case DictField => v.Dict?
  }

  /** One field declaration: name, type, `required=` flag and `missing=` default. */
  datatype Field = Field(name: string, kind: FieldType, required: bool, missing: Option<Value>)

  /** Why a field of the payload was rejected. */
  datatype FieldError = MissingField(field: string) | WrongType(field: string, expected: FieldType)

  /** The error a single declared field raises on a payload, if any. */
  function FieldCheck(p: Payload, f: Field): (r: Option<FieldError>)
    ensures r == Some(MissingField(f.name)) <==> f.required && f.name !in p
    ensures r == Some(WrongType(f.name, f.kind)) <==> f.name in p && !HasType(p[f.name], f.kind)
    ensures r.None? <==> (f.name in p ==> HasType(p[f.name], f.kind)) && (f.required ==> f.name in p)
  {
    if f.name in p then
      if HasType(p[f.name], f.kind) then None else Some(WrongType(f.name, f.kind))
    else if f.required then Some(MissingField(f.name))
    else None
  }

  /** The errors of all declared fields, in declaration order. */
  function SchemaErrors(p: Payload, fs: seq<Field>): seq<FieldError>
  {
    if fs == [] then []
    else
      (match FieldCheck(p, fs[0]) case Some(e) => [e] case None => [])
      + SchemaErrors(p, fs[1..])
  }

  /** The dictionary loading produces: every declared field present in the
      payload keeps its value, every absent one with a default gets it. */
  function Loaded(p: Payload, fs: seq<Field>): map<string, Value>
  {
    if fs == [] then map[]
    else
      var rest := Loaded(p, fs[1..]);
      if fs[0].name in p then rest[fs[0].name := p[fs[0].name]]
      else if fs[0].missing.Some? then rest[fs[0].name := fs[0].missing.value]
      else rest
  }

  /** Loads a payload against a schema: every error, or the loaded dictionary. */
  function Load(p: Payload, fs: seq<Field>): (r: Result<map<string, Value>, seq<FieldError>>)
    ensures r.Err? ==> r.error != []
  {
    var errs := SchemaErrors(p, fs);
    if errs == [] then Ok(Loaded(p, fs)) else Err(errs)
  }

  predicate DistinctNames(fs: seq<Field>)
  {
    forall i, j :: 0 <= i < j < |fs| ==> fs[i].name != fs[j].name
  }

  // ---- Generic facts about loading ----

  /** Every field's error is reported. */
  lemma {:induction false} SchemaErrorsComplete(p: Payload, fs: seq<Field>, i: int)
    requires 0 <= i < |fs| && FieldCheck(p, fs[i]).Some?
    ensures FieldCheck(p, fs[i]).value in SchemaErrors(p, fs)
  {
    if i > 0 {
      SchemaErrorsComplete(p, fs[1..], i - 1);
    }
  }

  /** Only field errors are reported. */
  lemma {:induction false} SchemaErrorsSound(p: Payload, fs: seq<Field>, e: FieldError)
    requires e in SchemaErrors(p, fs)
    ensures exists i :: 0 <= i < |fs| && FieldCheck(p, fs[i]) == Some(e)
  {
    if FieldCheck(p, fs[0]) != Some(e) {
      SchemaErrorsSound(p, fs[1..], e);
      var i :| 0 <= i < |fs[1..]| && FieldCheck(p, fs[1..][i]) == Some(e);
      assert fs[1..][i] == fs[i + 1];
    }
  }

  /** No error is reported exactly when every field passes its check. */
  lemma {:induction false} SchemaErrorsEmpty(p: Payload, fs: seq<Field>)
    ensures SchemaErrors(p, fs) == [] <==> forall i :: 0 <= i < |fs| ==> FieldCheck(p, fs[i]).None?
  {
    if fs != [] {
      SchemaErrorsEmpty(p, fs[1..]);
      assert forall i :: 1 <= i < |fs| ==> fs[i] == fs[1..][i - 1];
    }
  }

  /** The loaded dictionary holds only declared fields. */
  lemma {:induction false} LoadedKeysDeclared(p: Payload, fs: seq<Field>, k: string)
    requires k in Loaded(p, fs)
    ensures exists i :: 0 <= i < |fs| && fs[i].name == k
  {
    if k != fs[0].name {
      LoadedKeysDeclared(p, fs[1..], k);
      var i :| 0 <= i < |fs[1..]| && fs[1..][i].name == k;
      assert fs[i + 1].name == k;
    }
  }

  /** A declared field is loaded exactly when it is present or has a default,
      with the payload's value if present and the default otherwise. */
  lemma {:induction false} LoadedField(p: Payload, fs: seq<Field>, i: int)
    requires DistinctNames(fs) && 0 <= i < |fs|
    ensures var f := fs[i]; var m := Loaded(p, fs);
      && (f.name in m <==> f.name in p || f.missing.Some?)
      && (f.name in p ==> m[f.name] == p[f.name])
      && (f.name !in p && f.missing.Some? ==> m[f.name] == f.missing.value)
  {
    if i > 0 {
      assert DistinctNames(fs[1..]) by {
        forall a, b | 0 <= a < b < |fs[1..]| ensures fs[1..][a].name != fs[1..][b].name {
          assert fs[1..][a] == fs[a + 1] && fs[1..][b] == fs[b + 1];
        }
      }
      assert fs[1..][i - 1] == fs[i];
      LoadedField(p, fs[1..], i - 1);
      assert fs[0].name != fs[i].name;
    } else if fs[0].name in Loaded(p, fs[1..]) {
      // a later declaration with the same name would break DistinctNames
      LoadedKeysDeclared(p, fs[1..], fs[0].name);
    }
  }

  // ---- Reading fields of a loaded dictionary ----
  // Loading has already checked presence and type; the fallbacks below are
  // never reached on a dictionary that Load returned, as the lemmas show.

  function StrOf(m: map<string, Value>, k: string): string
  {
    if k in m && m[k].Str? then m[k].s else ""
  }

  function IntOf(m: map<string, Value>, k: string): int
  {
    if k in m && m[k].Int? then m[k].i else 0
  }

  function BoolOf(m: map<string, Value>, k: string): bool
  {
    if k in m && m[k].Bool? then m[k].b else false
  }

  function DictOf(m: map<string, Value>, k: string): map<string, Value>
  {
    if k in m && m[k].Dict? then m[k].d else map[]
  }

  function OptStrOf(m: map<string, Value>, k: string): Option<string>
  {
    if k in m && m[k].Str? then Some(m[k].s) else None
  }

  function OptIntOf(m: map<string, Value>, k: string): Option<int>
  {
    if k in m && m[k].Int? then Some(m[k].i) else None
  }

  function OptBoolOf(m: map<string, Value>, k: string): Option<bool>
  {
    if k in m && m[k].Bool? then Some(m[k].b) else None
  }

  // ---- Job ----

  /** A job already accepted into the system. */
  datatype Job = Job(
    cmd: string,
    dockerImg: string,
    jobId: string,
    maxRestartCount: int,
    restartCount: int,
    status: string,
    cvmfsMounts: string)

  /** The field declarations of the `Job` schema, in source order. */
  const JobFields: seq<Field> := [
    Field("cmd", StrField, true, None),
    Field("docker_img", StrField, true, None),
    Field("job_id", StrField, true, None),
    Field("max_restart_count", IntField, true, None),
    Field("restart_count", IntField, true, None),
    Field("status", StrField, true, None),
    Field("cvmfs_mounts", StrField, false, Some(Str("")))
  ]

  /** Loads a `Job` payload: every offending field, or the typed record. */
  function LoadJob(p: Payload): (r: Result<Job, seq<FieldError>>)
    ensures r.Err? ==> r.error != []
  {
    match Load(p, JobFields)
    case Err(es) => Err(es)
    case Ok(m) => Ok(JobOf(m))
  }

  /** The typed record of a loaded `Job` dictionary. */
  function JobOf(m: map<string, Value>): Job
  {
    Job(StrOf(m, "cmd"), StrOf(m, "docker_img"), StrOf(m, "job_id"),
      IntOf(m, "max_restart_count"), IntOf(m, "restart_count"),
      StrOf(m, "status"), StrOf(m, "cvmfs_mounts"))
  }

  /** The `Job` declarations read off directly: six required fields of the
      given types, and `cvmfs_mounts` a string when present. */
  predicate ValidJobPayload(p: Payload)
  {
    && "cmd" in p && p["cmd"].Str?
    && "docker_img" in p && p["docker_img"].Str?
    && "job_id" in p && p["job_id"].Str?
    && "max_restart_count" in p && p["max_restart_count"].Int?
    && "restart_count" in p && p["restart_count"].Int?
    && "status" in p && p["status"].Str?
    && ("cvmfs_mounts" in p ==> p["cvmfs_mounts"].Str?)
  }

  /** The position of a declared field in the `Job` table. */
  lemma JobFieldIndex(f: string) returns (i: nat)
    requires f in {"cmd", "docker_img", "job_id", "max_restart_count", "restart_count", "status", "cvmfs_mounts"}
    ensures i < |JobFields| && JobFields[i].name == f
  {
    if f == "cmd" { i := 0; }
    else if f == "docker_img" { i := 1; }
    else if f == "job_id" { i := 2; }
    else if f == "max_restart_count" { i := 3; }
    else if f == "restart_count" { i := 4; }
    else if f == "status" { i := 5; }
    else { i := 6; }
  }

  /** Loading a `Job` is the generic load over its table. */
  lemma LoadJobUnfold(p: Payload)
    ensures SchemaErrors(p, JobFields) != [] ==> LoadJob(p) == Err(SchemaErrors(p, JobFields))
    ensures SchemaErrors(p, JobFields) == [] ==> LoadJob(p) == Ok(JobOf(Loaded(p, JobFields)))
  {
  }

  /** The table reports no error exactly on payloads that meet the declarations. */
  lemma JobErrorsEmpty(p: Payload)
    ensures SchemaErrors(p, JobFields) == [] <==> ValidJobPayload(p)
  {
    var fs := JobFields;
    SchemaErrorsEmpty(p, fs);
    if !ValidJobPayload(p) {
      assert !(FieldCheck(p, fs[0]).None? && FieldCheck(p, fs[1]).None? && FieldCheck(p, fs[2]).None?
        && FieldCheck(p, fs[3]).None? && FieldCheck(p, fs[4]).None? && FieldCheck(p, fs[5]).None?
        && FieldCheck(p, fs[6]).None?);
    }
  }

  /** On a payload that meets the declarations, the record holds the
      payload's values, with the default only for an absent `cvmfs_mounts`. */
  lemma JobLoadedRecord(p: Payload)
    requires ValidJobPayload(p)
    ensures JobOf(Loaded(p, JobFields)) == Job(
      p["cmd"].s, p["docker_img"].s, p["job_id"].s,
      p["max_restart_count"].i, p["restart_count"].i, p["status"].s,
      if "cvmfs_mounts" in p then p["cvmfs_mounts"].s else "")
  {
    var fs := JobFields;
    assert DistinctNames(fs);
    LoadedField(p, fs, 0); LoadedField(p, fs, 1); LoadedField(p, fs, 2); LoadedField(p, fs, 3);
    LoadedField(p, fs, 4); LoadedField(p, fs, 5); LoadedField(p, fs, 6);
  }

  /** A `Job` payload loads exactly when it meets the declarations, and then
      every field is the payload's value, `cvmfs_mounts` defaulting to the
      empty string only when absent. */
  lemma LoadJobAccepts(p: Payload)
    ensures LoadJob(p).Ok? <==> ValidJobPayload(p)
    ensures ValidJobPayload(p) ==> LoadJob(p) == Ok(Job(
      p["cmd"].s, p["docker_img"].s, p["job_id"].s,
      p["max_restart_count"].i, p["restart_count"].i, p["status"].s,
      if "cvmfs_mounts" in p then p["cvmfs_mounts"].s else ""))
  {
    LoadJobUnfold(p);
    JobErrorsEmpty(p);
    if ValidJobPayload(p) {
      JobLoadedRecord(p);
    }
  }

  /** Each absent required `Job` field is reported by name. */
  lemma LoadJobMissing(p: Payload, f: string)
    requires f in {"cmd", "docker_img", "job_id", "max_restart_count", "restart_count", "status"}
    requires f !in p
    ensures LoadJob(p).Err? && MissingField(f) in LoadJob(p).error
  {
    var i := JobFieldIndex(f);
    SchemaErrorsComplete(p, JobFields, i);
    LoadJobUnfold(p);
  }

  /** Each present `Job` field of the wrong type is reported with the type
      it was declared with. */
  lemma LoadJobWrongType(p: Payload, f: string, t: FieldType)
    requires (f, t) in {("cmd", StrField), ("docker_img", StrField), ("job_id", StrField),
      ("max_restart_count", IntField), ("restart_count", IntField), ("status", StrField),
      ("cvmfs_mounts", StrField)}
    requires f in p && !HasType(p[f], t)
    ensures LoadJob(p).Err? && WrongType(f, t) in LoadJob(p).error
  {
    var i := JobFieldIndex(f);
    assert JobFields[i].kind == t;
    SchemaErrorsComplete(p, JobFields, i);
    assert WrongType(f, t) in SchemaErrors(p, JobFields);
    LoadJobUnfold(p);
  }

  /** Every reported `Job` error is an absent required field or a present
      field of the wrong declared type; undeclared keys are never reported. */
  lemma LoadJobErrorsSound(p: Payload, e: FieldError)
    ensures LoadJob(p).Err? && e in LoadJob(p).error && e.MissingField? ==>
      e.field in {"cmd", "docker_img", "job_id", "max_restart_count", "restart_count", "status"} && e.field !in p
    ensures LoadJob(p).Err? && e in LoadJob(p).error && e.WrongType? ==>
      && (e.field, e.expected) in {("cmd", StrField), ("docker_img", StrField), ("job_id", StrField),
           ("max_restart_count", IntField), ("restart_count", IntField), ("status", StrField),
           ("cvmfs_mounts", StrField)}
      && e.field in p && !HasType(p[e.field], e.expected)
  {
    LoadJobUnfold(p);
    if LoadJob(p).Err? && e in LoadJob(p).error {
      SchemaErrorsSound(p, JobFields, e);
    }
  }

  // ---- JobRequest ----

  /** A request to create a job. The last six fields are backend hints that
      stay unset when absent. */
  datatype JobRequest = JobRequest(
    jobName: string,
    workflowWorkspace: string,
    workflowUuid: string,
    cmd: string,
    prettifiedCmd: string,
    dockerImg: string,
    cvmfsMounts: string,
    envVars: map<string, Value>,
    sharedFileSystem: bool,
    computeBackend: Option<string>,
    kerberos: Option<bool>,
    vomsProxy: Option<bool>,
    kubernetesUid: Option<int>,
    unpackedImg: Option<bool>,
    htcondorMaxRuntime: Option<bool>)

  /** The field declarations of the `JobRequest` schema, in source order. */
  const JobRequestFields: seq<Field> := [
    Field("job_name", StrField, true, None),
    Field("workflow_workspace", StrField, true, None),
    Field("workflow_uuid", StrField, true, None),
    Field("cmd", StrField, false, Some(Str(""))),
    Field("prettified_cmd", StrField, false, Some(Str(""))),
    Field("docker_img", StrField, true, None),
    Field("cvmfs_mounts", StrField, false, Some(Str(""))),
    Field("env_vars", DictField, false, Some(Dict(map[]))),
    Field("shared_file_system", BoolField, false, Some(Bool(true))),
    Field("compute_backend", StrField, false, None),
    Field("kerberos", BoolField, false, None),
    Field("voms_proxy", BoolField, false, None),
    Field("kubernetes_uid", IntField, false, None),
    Field("unpacked_img", BoolField, false, None),
    Field("htcondor_max_runtime", BoolField, false, None)
  ]

  /** Loads a `JobRequest` payload: every offending field, or the typed record. */
  function LoadJobRequest(p: Payload): (r: Result<JobRequest, seq<FieldError>>)
    ensures r.Err? ==> r.error != []
  {
    match Load(p, JobRequestFields)
    case Err(es) => Err(es)
    case Ok(m) => Ok(JobRequestOf(m))
  }

  /** The typed record of a loaded `JobRequest` dictionary. */
  function JobRequestOf(m: map<string, Value>): JobRequest
  {
    JobRequest(
      StrOf(m, "job_name"), StrOf(m, "workflow_workspace"), StrOf(m, "workflow_uuid"),
      StrOf(m, "cmd"), StrOf(m, "prettified_cmd"), StrOf(m, "docker_img"),
      StrOf(m, "cvmfs_mounts"), DictOf(m, "env_vars"), BoolOf(m, "shared_file_system"),
      OptStrOf(m, "compute_backend"), OptBoolOf(m, "kerberos"), OptBoolOf(m, "voms_proxy"),
      OptIntOf(m, "kubernetes_uid"), OptBoolOf(m, "unpacked_img"),
      OptBoolOf(m, "htcondor_max_runtime"))
  }

  /** The `JobRequest` declarations read off directly: four required string
      fields, and every other declared field of its type when present. */
  predicate ValidJobRequestPayload(p: Payload)
  {
    && "job_name" in p && p["job_name"].Str?
    && "workflow_workspace" in p && p["workflow_workspace"].Str?
    && "workflow_uuid" in p && p["workflow_uuid"].Str?
    && "docker_img" in p && p["docker_img"].Str?
    && ("cmd" in p ==> p["cmd"].Str?)
    && ("prettified_cmd" in p ==> p["prettified_cmd"].Str?)
    && ("cvmfs_mounts" in p ==> p["cvmfs_mounts"].Str?)
    && ("env_vars" in p ==> p["env_vars"].Dict?)
    && ("shared_file_system" in p ==> p["shared_file_system"].Bool?)
    && ("compute_backend" in p ==> p["compute_backend"].Str?)
    && ("kerberos" in p ==> p["kerberos"].Bool?)
    && ("voms_proxy" in p ==> p["voms_proxy"].Bool?)
    && ("kubernetes_uid" in p ==> p["kubernetes_uid"].Int?)
    && ("unpacked_img" in p ==> p["unpacked_img"].Bool?)
    && ("htcondor_max_runtime" in p ==> p["htcondor_max_runtime"].Bool?)
  }

  /** The position of a declared field in the `JobRequest` table. */
  lemma JobRequestFieldIndex(f: string) returns (i: nat)
    requires f in {"job_name", "workflow_workspace", "workflow_uuid", "cmd", "prettified_cmd",
      "docker_img", "cvmfs_mounts", "env_vars", "shared_file_system", "compute_backend",
      "kerberos", "voms_proxy", "kubernetes_uid", "unpacked_img", "htcondor_max_runtime"}
    ensures i < |JobRequestFields| && JobRequestFields[i].name == f
  {
    if f == "job_name" { i := 0; }
    else if f == "workflow_workspace" { i := 1; }
    else if f == "workflow_uuid" { i := 2; }
    else if f == "cmd" { i := 3; }
    else if f == "prettified_cmd" { i := 4; }
    else if f == "docker_img" { i := 5; }
    else if f == "cvmfs_mounts" { i := 6; }
    else if f == "env_vars" { i := 7; }
    else if f == "shared_file_system" { i := 8; }
    else if f == "compute_backend" { i := 9; }
    else if f == "kerberos" { i := 10; }
    else if f == "voms_proxy" { i := 11; }
    else if f == "kubernetes_uid" { i := 12; }
    else if f == "unpacked_img" { i := 13; }
    else { i := 14; }
  }

  /** Loading a `JobRequest` is the generic load over its table. */
  lemma LoadJobRequestUnfold(p: Payload)
    ensures SchemaErrors(p, JobRequestFields) != [] ==> LoadJobRequest(p) == Err(SchemaErrors(p, JobRequestFields))
    ensures SchemaErrors(p, JobRequestFields) == [] ==> LoadJobRequest(p) == Ok(JobRequestOf(Loaded(p, JobRequestFields)))
  {
  }

  /** Every field of a payload that meets the declarations passes its check. */
  lemma JobRequestChecksPass(p: Payload)
    requires ValidJobRequestPayload(p)
    ensures forall i :: 0 <= i < |JobRequestFields| ==> FieldCheck(p, JobRequestFields[i]).None?
  {
  }

  /** A payload whose every field passes its check meets the declarations. */
  lemma JobRequestChecksValid(p: Payload)
    requires forall i :: 0 <= i < |JobRequestFields| ==> FieldCheck(p, JobRequestFields[i]).None?
    ensures ValidJobRequestPayload(p)
  {
    var fs := JobRequestFields;
    assert FieldCheck(p, fs[0]).None? && FieldCheck(p, fs[1]).None? && FieldCheck(p, fs[2]).None?
      && FieldCheck(p, fs[3]).None? && FieldCheck(p, fs[4]).None? && FieldCheck(p, fs[5]).None?
      && FieldCheck(p, fs[6]).None? && FieldCheck(p, fs[7]).None? && FieldCheck(p, fs[8]).None?
      && FieldCheck(p, fs[9]).None? && FieldCheck(p, fs[10]).None? && FieldCheck(p, fs[11]).None?
      && FieldCheck(p, fs[12]).None? && FieldCheck(p, fs[13]).None? && FieldCheck(p, fs[14]).None?;
  }

  /** The table reports no error exactly on payloads that meet the declarations. */
  lemma JobRequestErrorsEmpty(p: Payload)
    ensures SchemaErrors(p, JobRequestFields) == [] <==> ValidJobRequestPayload(p)
  {
    SchemaErrorsEmpty(p, JobRequestFields);
    if ValidJobRequestPayload(p) {
      JobRequestChecksPass(p);
    } else if SchemaErrors(p, JobRequestFields) == [] {
      JobRequestChecksValid(p);
    }
  }

  lemma JobRequestFieldsDistinct()
    ensures DistinctNames(JobRequestFields)
  {
  }

  /** On a payload that meets the declarations, the record holds the
      payload's values where present and the declared defaults where absent. */
  lemma JobRequestLoadedRecord(p: Payload)
    requires ValidJobRequestPayload(p)
    ensures JobRequestOf(Loaded(p, JobRequestFields)) == JobRequest(
      p["job_name"].s, p["workflow_workspace"].s, p["workflow_uuid"].s,
      if "cmd" in p then p["cmd"].s else "",
      if "prettified_cmd" in p then p["prettified_cmd"].s else "",
      p["docker_img"].s,
      if "cvmfs_mounts" in p then p["cvmfs_mounts"].s else "",
      if "env_vars" in p then p["env_vars"].d else map[],
      if "shared_file_system" in p then p["shared_file_system"].b else true,
      if "compute_backend" in p then Some(p["compute_backend"].s) else None,
      if "kerberos" in p then Some(p["kerberos"].b) else None,
      if "voms_proxy" in p then Some(p["voms_proxy"].b) else None,
      if "kubernetes_uid" in p then Some(p["kubernetes_uid"].i) else None,
      if "unpacked_img" in p then Some(p["unpacked_img"].b) else None,
      if "htcondor_max_runtime" in p then Some(p["htcondor_max_runtime"].b) else None)
  {
    var fs := JobRequestFields;
    JobRequestFieldsDistinct();
    LoadedField(p, fs, 0); LoadedField(p, fs, 1); LoadedField(p, fs, 2); LoadedField(p, fs, 3);
    LoadedField(p, fs, 4); LoadedField(p, fs, 5); LoadedField(p, fs, 6); LoadedField(p, fs, 7);
    LoadedField(p, fs, 8); LoadedField(p, fs, 9); LoadedField(p, fs, 10); LoadedField(p, fs, 11);
    LoadedField(p, fs, 12); LoadedField(p, fs, 13); LoadedField(p, fs, 14);
  }

  /** A `JobRequest` payload loads exactly when it meets the declarations.
      Then every field is the payload's value when present; when absent,
      `cmd`, `prettified_cmd` and `cvmfs_mounts` are empty, `env_vars` is the
      empty mapping, `shared_file_system` is true, and the hints are unset.
      A present `false` or empty string is kept as given. */
  lemma LoadJobRequestAccepts(p: Payload)
    ensures LoadJobRequest(p).Ok? <==> ValidJobRequestPayload(p)
    ensures ValidJobRequestPayload(p) ==> LoadJobRequest(p) == Ok(JobRequest(
      p["job_name"].s, p["workflow_workspace"].s, p["workflow_uuid"].s,
      if "cmd" in p then p["cmd"].s else "",
      if "prettified_cmd" in p then p["prettified_cmd"].s else "",
      p["docker_img"].s,
      if "cvmfs_mounts" in p then p["cvmfs_mounts"].s else "",
      if "env_vars" in p then p["env_vars"].d else map[],
      if "shared_file_system" in p then p["shared_file_system"].b else true,
      if "compute_backend" in p then Some(p["compute_backend"].s) else None,
      if "kerberos" in p then Some(p["kerberos"].b) else None,
      if "voms_proxy" in p then Some(p["voms_proxy"].b) else None,
      if "kubernetes_uid" in p then Some(p["kubernetes_uid"].i) else None,
      if "unpacked_img" in p then Some(p["unpacked_img"].b) else None,
      if "htcondor_max_runtime" in p then Some(p["htcondor_max_runtime"].b) else None))
  {
    LoadJobRequestUnfold(p);
    JobRequestErrorsEmpty(p);
    if ValidJobRequestPayload(p) {
      JobRequestLoadedRecord(p);
    }
  }

  /** Each absent required `JobRequest` field is reported by name. */
  lemma LoadJobRequestMissing(p: Payload, f: string)
    requires f in {"job_name", "workflow_workspace", "workflow_uuid", "docker_img"}
    requires f !in p
    ensures LoadJobRequest(p).Err? && MissingField(f) in LoadJobRequest(p).error
  {
    var i := JobRequestFieldIndex(f);
    SchemaErrorsComplete(p, JobRequestFields, i);
    LoadJobRequestUnfold(p);
  }

  /** Each present `JobRequest` field of the wrong type is reported with the
      type it was declared with. */
  lemma LoadJobRequestWrongType(p: Payload, f: string, t: FieldType)
    requires (f, t) in {("job_name", StrField), ("workflow_workspace", StrField),
      ("workflow_uuid", StrField), ("cmd", StrField), ("prettified_cmd", StrField),
      ("docker_img", StrField), ("cvmfs_mounts", StrField), ("env_vars", DictField),
      ("shared_file_system", BoolField), ("compute_backend", StrField), ("kerberos", BoolField),
      ("voms_proxy", BoolField), ("kubernetes_uid", IntField), ("unpacked_img", BoolField),
      ("htcondor_max_runtime", BoolField)}
    requires f in p && !HasType(p[f], t)
    ensures LoadJobRequest(p).Err? && WrongType(f, t) in LoadJobRequest(p).error
  {
    var i := JobRequestFieldIndex(f);
    assert JobRequestFields[i].kind == t;
    SchemaErrorsComplete(p, JobRequestFields, i);
    assert WrongType(f, t) in SchemaErrors(p, JobRequestFields);
    LoadJobRequestUnfold(p);
  }

  /** A single field's error is an absent required field or a present field
      of the wrong declared type. */
  lemma JobRequestCheckSound(p: Payload, i: int, e: FieldError)
    requires 0 <= i < |JobRequestFields| && FieldCheck(p, JobRequestFields[i]) == Some(e)
    ensures e.MissingField? ==>
      e.field in {"job_name", "workflow_workspace", "workflow_uuid", "docker_img"} && e.field !in p
    ensures e.WrongType? ==>
      && (e.field, e.expected) in {("job_name", StrField), ("workflow_workspace", StrField),
           ("workflow_uuid", StrField), ("cmd", StrField), ("prettified_cmd", StrField),
           ("docker_img", StrField), ("cvmfs_mounts", StrField), ("env_vars", DictField),
           ("shared_file_system", BoolField), ("compute_backend", StrField), ("kerberos", BoolField),
           ("voms_proxy", BoolField), ("kubernetes_uid", IntField), ("unpacked_img", BoolField),
           ("htcondor_max_runtime", BoolField)}
      && e.field in p && !HasType(p[e.field], e.expected)
  {
  }

  /** Every reported `JobRequest` error is an absent required field or a
      present field of the wrong declared type; an absent hint is no error. */
  lemma LoadJobRequestErrorsSound(p: Payload, e: FieldError)
    ensures LoadJobRequest(p).Err? && e in LoadJobRequest(p).error && e.MissingField? ==>
      e.field in {"job_name", "workflow_workspace", "workflow_uuid", "docker_img"} && e.field !in p
    ensures LoadJobRequest(p).Err? && e in LoadJobRequest(p).error && e.WrongType? ==>
      && (e.field, e.expected) in {("job_name", StrField), ("workflow_workspace", StrField),
           ("workflow_uuid", StrField), ("cmd", StrField), ("prettified_cmd", StrField),
           ("docker_img", StrField), ("cvmfs_mounts", StrField), ("env_vars", DictField),
           ("shared_file_system", BoolField), ("compute_backend", StrField), ("kerberos", BoolField),
           ("voms_proxy", BoolField), ("kubernetes_uid", IntField), ("unpacked_img", BoolField),
           ("htcondor_max_runtime", BoolField)}
      && e.field in p && !HasType(p[e.field], e.expected)
  {
    LoadJobRequestUnfold(p);
    if LoadJobRequest(p).Err? && e in LoadJobRequest(p).error {
      SchemaErrorsSound(p, JobRequestFields, e);
      var i :| 0 <= i < |JobRequestFields| && FieldCheck(p, JobRequestFields[i]) == Some(e);
      JobRequestCheckSound(p, i, e);
    }
  }
}
