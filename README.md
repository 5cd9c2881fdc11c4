# REANA job controller: volume descriptors and job schemas

A Dafny model of two stateless parts of the REANA job controller:

- **Volume templates** (`reana_job_controller/volume_templates.py`). Three
  catalogs: experiment to shared storage path, symbolic CVMFS repository to
  its `*.cern.ch` host, and the CephFS secret name. Four renderers use them:
  the mount point of a CVMFS repository, and the Kubernetes volume
  descriptors for a CephFS shared volume, a CVMFS flex volume and a
  host-path volume. The source fills a `string.Template` and parses it with
  `json.loads`. The model builds the parsed object directly as a
  `Json.Json` value, whose objects are maps from key to value. A catalog
  miss is `Err(KeyError(key))`. An unknown CVMFS repository is
  `Err(ValueError("The provided repository doesn't exist"))`.
- **Job schemas** (`reana_job_controller/schemas.py`). The `Job` and
  `JobRequest` marshmallow schemas are written as tables of field
  declarations: name, value type, `required=` flag and `missing=` default.
  One generic loader checks every declared field. It returns either every
  offending field (`MissingField` or `WrongType`), in declaration order,
  or a dictionary with the defaults filled in. `LoadJob` and
  `LoadJobRequest` turn that dictionary into a typed record. Keys that the
  schema does not declare are ignored, the same way for both schemas.

Modules: `Wrappers` (Option, Result), `Json` (parsed JSON values, path
lookup, the characters a template can take unescaped), `VolumeTemplates`,
and `Schemas`.

The code, as written, behaves as follows, and the model follows it:

- The CVMFS descriptor's `repository` option is the symbolic name the
  caller passed (`atlas`), not the catalog's host (`atlas.cern.ch`). The
  catalog is only used to check that the name exists.
- No renderer falls back to the `default` storage entry. `default` is an
  ordinary key, and an unknown experiment is a `KeyError`.
- `env_vars` is declared as an untyped `fields.Dict()`, so its values are
  any payload `Value`, not only strings.

## Model

| member | source | states |
|---|---|---|
| `VolumeTemplates.CvmfsMountPoint` | reana_job_controller/volume_templates.py:89-97 | succeeds exactly for catalog repositories; the mount point is `/cvmfs/` + name + `.cern.ch`; any other name is `KeyError(name)` |
| `VolumeTemplates.CephfsVolume` | reana_job_controller/volume_templates.py:100-110 | succeeds exactly for experiments in the storage catalog; any other experiment is `KeyError(experiment)`, with no fallback |
| `VolumeTemplates.CvmfsVolume` | reana_job_controller/volume_templates.py:113-123 | succeeds exactly when the repository is in the CVMFS catalog; an unknown repository is refused for any experiment, and only on the success path must the experiment be template-safe; the error is `ValueError` with the source's message |
| `VolumeTemplates.CvmfsVolumeUnknownRepository` | reana_job_controller/volume_templates.py:119-123 | an unknown repository gives the `ValueError` with the source's message for every experiment, including one such as `a"b` that the template could not take |
| `VolumeTemplates.HostpathVolume` | reana_job_controller/volume_templates.py:126-135 | succeeds exactly for experiments in the storage catalog; any other experiment is `KeyError(experiment)` |
| `VolumeTemplates.CephfsVolumeContents` | reana_job_controller/volume_templates.py:54-69 | keys exactly `name` and `cephfs`; name `<e>-shared-volume`; `cephfs` has exactly monitors (the three fixed addresses, in order), path (the catalog path, `/reana/<e>`), user `k8s`, and secretRef (exactly name `ceph-secret` and readOnly false) |
| `VolumeTemplates.CvmfsVolumeContents` | reana_job_controller/volume_templates.py:71-79 | keys exactly `name` and `flexVolume`; name `cvmfs-<e>`; driver `cern/cvmfs`; options hold only `repository`, equal to the argument unchanged |
| `VolumeTemplates.HostpathVolumeContents` | reana_job_controller/volume_templates.py:81-86 | keys exactly `name` and `hostPath`; name `<e>-shared-volume`; `hostPath` holds only `path`, the catalog path `/reana/<e>` |
| `VolumeTemplates.CvmfsVolumeKeepsSymbolicName` | reana_job_controller/volume_templates.py:119-121 | the embedded repository is never the catalog's host for that repository |
| `VolumeTemplates.ReanaStoragePathsShape` | reana_job_controller/volume_templates.py:30-36 | every storage path is `/reana/` followed by its experiment |
| `VolumeTemplates.CvmfsRepositoriesShape` | reana_job_controller/volume_templates.py:38-50 | every repository host is its name followed by `.cern.ch` |
| `VolumeTemplates.CatalogsAreSafe` | reana_job_controller/volume_templates.py:28-50 | the secret name and every catalog key and value can be substituted into a template unescaped |
| `VolumeTemplates.CvmfsVolumeNamesDistinct` | reana_job_controller/volume_templates.py:71-72 | distinct experiments get distinct CVMFS volume names |
| `VolumeTemplates.SharedVolumeNamesDistinct` | reana_job_controller/volume_templates.py:54-55 | distinct catalog experiments get distinct CephFS and host-path volume names |
| `VolumeTemplates.CvmfsAndSharedNamesDiffer` | reana_job_controller/volume_templates.py:71-72 | no CVMFS volume name equals a CephFS or host-path volume name |
| `VolumeTemplates.CvmfsMountPointCms` | reana_job_controller/volume_templates.py:95-97 | `cms` mounts at `/cvmfs/cms.cern.ch` |
| `VolumeTemplates.HostpathVolumeLhcb` | reana_job_controller/volume_templates.py:81-86 | `lhcb` renders `{name: lhcb-shared-volume, hostPath: {path: /reana/lhcb}}` |
| `VolumeTemplates.CvmfsVolumeAtlas` | reana_job_controller/volume_templates.py:119-123 | `(atlas, atlas)` carries repository `atlas`; `(atlas, not-a-real-repo)` is the `ValueError` |
| `VolumeTemplates.DefaultIsOrdinaryKey` | reana_job_controller/volume_templates.py:30-36 | `default` renders `/reana/default`; an experiment outside the catalog is a `KeyError` for both shared-volume renderers |
| `Schemas.FieldCheck` | reana_job_controller/schemas.py:18-44 | a declared field fails as missing exactly when it is required and absent, as mistyped exactly when it is present with another type, and passes otherwise |
| `Schemas.SchemaErrorsComplete` | reana_job_controller/schemas.py:15-44 | every failing declared field is reported, not just the first |
| `Schemas.SchemaErrorsSound` | reana_job_controller/schemas.py:15-44 | only failing declared fields are reported |
| `Schemas.SchemaErrorsEmpty` | reana_job_controller/schemas.py:15-44 | no error is reported exactly when every declared field passes |
| `Schemas.LoadedKeysDeclared` | reana_job_controller/schemas.py:15-44 | the loaded dictionary holds only declared fields |
| `Schemas.LoadedField` | reana_job_controller/schemas.py:33-38 | a field is loaded iff present or defaulted; it holds the payload's value when present and its default only when absent |
| `Schemas.LoadJob` | reana_job_controller/schemas.py:15-24 | a rejected `Job` names at least one field |
| `Schemas.JobErrorsEmpty` | reana_job_controller/schemas.py:18-24 | the `Job` table reports nothing exactly on payloads meeting the declared types and required flags |
| `Schemas.JobLoadedRecord` | reana_job_controller/schemas.py:18-24 | the loaded `Job` record holds the payload's values; `cvmfs_mounts` is `""` only when absent |
| `Schemas.LoadJobAccepts` | reana_job_controller/schemas.py:15-24 | a `Job` loads iff the six required fields are present with their types and `cvmfs_mounts`, if present, is a string; then each field is the payload value, a given `""` kept |
| `Schemas.LoadJobMissing` | reana_job_controller/schemas.py:18-23 | an absent `cmd`, `docker_img`, `job_id`, `max_restart_count`, `restart_count` or `status` fails, naming that field |
| `Schemas.LoadJobWrongType` | reana_job_controller/schemas.py:18-24 | a present `Job` field of the wrong type fails, naming it and its declared type |
| `Schemas.LoadJobErrorsSound` | reana_job_controller/schemas.py:15-24 | every reported `Job` error is an absent required field or a mistyped declared field |
| `Schemas.LoadJobRequest` | reana_job_controller/schemas.py:27-44 | a rejected `JobRequest` names at least one field |
| `Schemas.JobRequestChecksPass` | reana_job_controller/schemas.py:30-44 | every field of a payload meeting the `JobRequest` declarations passes its check |
| `Schemas.JobRequestChecksValid` | reana_job_controller/schemas.py:30-44 | a payload whose every `JobRequest` field passes meets the declarations |
| `Schemas.JobRequestErrorsEmpty` | reana_job_controller/schemas.py:30-44 | the `JobRequest` table reports nothing exactly on payloads meeting the declarations |
| `Schemas.JobRequestCheckSound` | reana_job_controller/schemas.py:30-44 | one field's error names an absent required field or a mistyped declared field |
| `Schemas.JobRequestLoadedRecord` | reana_job_controller/schemas.py:30-44 | the loaded `JobRequest` record holds payload values where present and the declared defaults where absent |
| `Schemas.LoadJobRequestAccepts` | reana_job_controller/schemas.py:27-44 | a `JobRequest` loads iff its four required strings are present and every other declared field, if present, has its type; absent `cmd`, `prettified_cmd`, `cvmfs_mounts` become `""`, `env_vars` `{}`, `shared_file_system` true, the six hints unset; a given `false` or `""` is kept |
| `Schemas.LoadJobRequestMissing` | reana_job_controller/schemas.py:30-35 | an absent `job_name`, `workflow_workspace`, `workflow_uuid` or `docker_img` fails, naming that field |
| `Schemas.LoadJobRequestWrongType` | reana_job_controller/schemas.py:30-44 | a present `JobRequest` field of the wrong type fails, naming it and its declared type (e.g. `htcondor_max_runtime` Bool) |
| `Schemas.LoadJobRequestErrorsSound` | reana_job_controller/schemas.py:27-44 | every reported `JobRequest` error is an absent required field or a mistyped declared field; an absent hint is never an error |

## Left out

- Template substitution and JSON parsing (volume_templates.py:25-26, 54-86, 106-110, 120, 132-135): the parsed object is built directly. Its members carry no key order, which a Kubernetes volume does not depend on.
- VolumeTemplates.CvmfsVolume: when the repository is in the catalog, requires the experiment to be a string the template can take unescaped (no `"`, `\` or control character); on that path any other experiment makes the source produce malformed JSON or a different object. An unknown repository is refused with the `ValueError` whatever the experiment (`CvmfsVolumeUnknownRepository`). The other renderers need no such requirement, because a successful lookup means the input is a catalog key (`CatalogsAreSafe`).
- `REANA_STORAGE_MOUNT_PATH` (volume_templates.py:52): declared, but no modelled function uses it.
- Persistent-volume-claim forms of the CephFS and CVMFS descriptors: there are no such templates in these files.
- Same output for the same inputs holds because every renderer is a Dafny function. It is not stated as a separate lemma.
- Marshmallow internals: coercing strings to integers or booleans, Python's `bool` being an `int`, `null` values, error message texts and the error dictionary's layout. A field accepts only a value of its declared kind, and errors are a list in declaration order.
- Unknown payload keys are ignored. Marshmallow's own policy depends on its version and is not modelled.
- `pre_load` (schemas.py:12) is imported but never used.
- Cross-field checks such as `restart_count <= max_restart_count`: the schemas do not perform them.
- Pod assembly, job submission to Kubernetes, HTCondor or Slurm, the HTTP layer, status tracking and secret creation: these are not part of these files.
