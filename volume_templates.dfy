/** Rendering of Kubernetes volume descriptors for REANA jobs: a CephFS shared
    volume, a CVMFS flex volume and a host-path volume, plus the mount point of
    a CVMFS repository. Each template is modelled by the object that parsing
    its substituted text yields. */
module VolumeTemplates {
  import opened Wrappers
  import opened Json

  /** Name of the Kubernetes secret the CephFS volume authenticates with. */
  const CephfsSecretName: string := "ceph-secret"

  /** Experiment name to its shared storage path on the cluster. */
  const ReanaStoragePaths: map<string, string> := map[
    "alice" := "/reana/alice",
    "atlas" := "/reana/atlas",
    "cms" := "/reana/cms",
    "lhcb" := "/reana/lhcb",
    "default" := "/reana/default"
  ]

  /** Symbolic CVMFS repository name to its CERN host. */
  const CvmfsRepositories: map<string, string> := map[
    "alice" := "alice.cern.ch",
    "alice-ocdb" := "alice-ocdb.cern.ch",
    "atlas" := "atlas.cern.ch",
    "atlas-condb" := "atlas-condb.cern.ch",
    "cms" := "cms.cern.ch",
    "lhcb" := "lhcb.cern.ch",
    "na61" := "na61.cern.ch",
    "boss" := "boss.cern.ch",
    "grid" := "grid.cern.ch",
    "sft" := "sft.cern.ch",
    "geant4" := "geant4.cern.ch"
  ]

  /** The Ceph monitors wired into the CephFS template, in template order. */
  const CephfsMonitors: seq<string> := [
    "128.142.36.227:6790",
    "128.142.39.77:6790",
    "128.142.39.144:6790"
  ]

  /** The errors the renderers raise: a catalog lookup miss (`KeyError`) or
      the CVMFS renderer's explicit rejection (`ValueError`). */
  datatype VolumeError = KeyError(key: string) | ValueError(message: string)

  const UnknownRepositoryMessage: string := "The provided repository doesn't exist"

  // ---- The three templates, as the parser reads them after substitution ----

  function CephfsTemplate(experiment: string, path: string, secretName: string): Json
  {
    JObject(map[
      "name" := JString(experiment + "-shared-volume"),
      "cephfs" := JObject(map[
        "monitors" := JArray([JString(CephfsMonitors[0]), JString(CephfsMonitors[1]), JString(CephfsMonitors[2])]),
        "path" := JString(path),
        "user" := JString("k8s"),
        "secretRef" := JObject(map[
          "name" := JString(secretName),
          "readOnly" := JBool(false)
        ])
      ])
    ])
  }

  function CvmfsTemplate(experiment: string, repository: string): Json
  {
    JObject(map[
      "name" := JString("cvmfs-" + experiment),
      "flexVolume" := JObject(map[
        "driver" := JString("cern/cvmfs"),
        "options" := JObject(map[
          "repository" := JString(repository)
        ])
      ])
    ])
  }

  function HostpathTemplate(experiment: string, path: string): Json
  {
    JObject(map[
      "name" := JString(experiment + "-shared-volume"),
      "hostPath" := JObject(map[
        "path" := JString(path)
      ])
    ])
  }

  // ---- Renderers ----

  /** The mount point of a CVMFS repository given by its symbolic name. */
  function CvmfsMountPoint(repositoryName: string): (r: Result<string, VolumeError>)
    ensures r.Ok? <==> repositoryName in CvmfsRepositories
    ensures r.Err? ==> r.error == KeyError(repositoryName)
    ensures r.Ok? ==> r.value == "/cvmfs/" + repositoryName + ".cern.ch"
  {
    if repositoryName in CvmfsRepositories then
      CvmfsRepositoriesShape();
      Ok("/cvmfs/" + CvmfsRepositories[repositoryName])
    else Err(KeyError(repositoryName))
  }

  /** The CephFS shared volume of an experiment. */
  function CephfsVolume(experiment: string): (r: Result<Json, VolumeError>)
    ensures r.Ok? <==> experiment in ReanaStoragePaths
    ensures r.Err? ==> r.error == KeyError(experiment)
  {
    if experiment in ReanaStoragePaths then
      Ok(CephfsTemplate(experiment, ReanaStoragePaths[experiment], CephfsSecretName))
    else Err(KeyError(experiment))
  }

  /** The CVMFS flex volume of a repository for an experiment. Only the
      repository is checked against a catalog, and the descriptor carries the
      symbolic name the caller gave, not the catalog's host. The repository is
      checked before anything is substituted; the experiment is then
      substituted unchecked, so on that path it must not break out of its
      JSON string. */
  function CvmfsVolume(experiment: string, repository: string): (r: Result<Json, VolumeError>)
    requires repository in CvmfsRepositories ==> SafeString(experiment)
    ensures r.Ok? <==> repository in CvmfsRepositories
    ensures r.Err? ==> r.error == ValueError(UnknownRepositoryMessage)
  {
    if repository in CvmfsRepositories then Ok(CvmfsTemplate(experiment, repository))
    else Err(ValueError(UnknownRepositoryMessage))
  }

  /** The host-path shared volume of an experiment. */
  function HostpathVolume(experiment: string): (r: Result<Json, VolumeError>)
    ensures r.Ok? <==> experiment in ReanaStoragePaths
    ensures r.Err? ==> r.error == KeyError(experiment)
  {
    if experiment in ReanaStoragePaths then
      Ok(HostpathTemplate(experiment, ReanaStoragePaths[experiment]))
    else Err(KeyError(experiment))
  }

  // ---- Catalog invariants ----

  /** Every experiment's storage path is `/reana/` followed by its name. */
  lemma ReanaStoragePathsShape()
    ensures forall k :: k in ReanaStoragePaths ==> ReanaStoragePaths[k] == "/reana/" + k
  {
  }

  /** Every repository's host is its symbolic name followed by `.cern.ch`. */
  lemma CvmfsRepositoriesShape()
    ensures forall k :: k in CvmfsRepositories ==> CvmfsRepositories[k] == k + ".cern.ch"
  {
  }

  // ---- What each rendered descriptor holds ----

  /** A rendered CephFS volume is named after the experiment, mounts the
      experiment's storage path through the three fixed monitors as user
      `k8s`, and authenticates with the writable `ceph-secret`; it has no
      other keys. */
  lemma CephfsVolumeContents(experiment: string)
    requires experiment in ReanaStoragePaths
    ensures CephfsVolume(experiment).Ok?
    ensures var v := CephfsVolume(experiment).value;
      && KeysAt(v, []) == Some({"name", "cephfs"})
      && At(v, ["name"]) == Some(JString(experiment + "-shared-volume"))
      && KeysAt(v, ["cephfs"]) == Some({"monitors", "path", "user", "secretRef"})
      && At(v, ["cephfs", "monitors"]) == Some(JArray([
           JString("128.142.36.227:6790"), JString("128.142.39.77:6790"), JString("128.142.39.144:6790")]))
      && At(v, ["cephfs", "path"]) == Some(JString(ReanaStoragePaths[experiment]))
      && At(v, ["cephfs", "path"]) == Some(JString("/reana/" + experiment))
      && At(v, ["cephfs", "user"]) == Some(JString("k8s"))
      && KeysAt(v, ["cephfs", "secretRef"]) == Some({"name", "readOnly"})
      && At(v, ["cephfs", "secretRef", "name"]) == Some(JString("ceph-secret"))
      && At(v, ["cephfs", "secretRef", "readOnly"]) == Some(JBool(false))
  {
    ReanaStoragePathsShape();
    var v := CephfsVolume(experiment).value;
    assert v.members.Keys == {"name", "cephfs"};
    var c := v.members["cephfs"].members;
    assert c.Keys == {"monitors", "path", "user", "secretRef"};
    assert c["secretRef"].members.Keys == {"name", "readOnly"};
  }

  /** A rendered CVMFS volume is named `cvmfs-` plus the experiment, uses the
      `cern/cvmfs` flex driver, and passes the repository exactly as given. */
  lemma CvmfsVolumeContents(experiment: string, repository: string)
    requires SafeString(experiment)
    requires repository in CvmfsRepositories
    ensures CvmfsVolume(experiment, repository).Ok?
    ensures var v := CvmfsVolume(experiment, repository).value;
      && KeysAt(v, []) == Some({"name", "flexVolume"})
      && At(v, ["name"]) == Some(JString("cvmfs-" + experiment))
      && KeysAt(v, ["flexVolume"]) == Some({"driver", "options"})
      && At(v, ["flexVolume", "driver"]) == Some(JString("cern/cvmfs"))
      && KeysAt(v, ["flexVolume", "options"]) == Some({"repository"})
      && At(v, ["flexVolume", "options", "repository"]) == Some(JString(repository))
  {
    var v := CvmfsVolume(experiment, repository).value;
    assert v.members.Keys == {"name", "flexVolume"};
    var f := v.members["flexVolume"].members;
    assert f.Keys == {"driver", "options"};
    assert f["options"].members.Keys == {"repository"};
  }

  /** A rendered host-path volume has exactly a name, derived from the
      experiment, and a host path, the experiment's storage path. */
  lemma HostpathVolumeContents(experiment: string)
    requires experiment in ReanaStoragePaths
    ensures HostpathVolume(experiment).Ok?
    ensures var v := HostpathVolume(experiment).value;
      && KeysAt(v, []) == Some({"name", "hostPath"})
      && At(v, ["name"]) == Some(JString(experiment + "-shared-volume"))
      && KeysAt(v, ["hostPath"]) == Some({"path"})
      && At(v, ["hostPath", "path"]) == Some(JString(ReanaStoragePaths[experiment]))
      && At(v, ["hostPath", "path"]) == Some(JString("/reana/" + experiment))
  {
    ReanaStoragePathsShape();
    var v := HostpathVolume(experiment).value;
    assert v.members.Keys == {"name", "hostPath"};
    assert v.members["hostPath"].members.Keys == {"path"};
  }

  /** The CVMFS descriptor carries the symbolic repository name, never the
      host that the catalog maps it to. */
  lemma CvmfsVolumeKeepsSymbolicName(experiment: string, repository: string)
    requires SafeString(experiment)
    requires repository in CvmfsRepositories
    ensures CvmfsVolume(experiment, repository).Ok?
    ensures At(CvmfsVolume(experiment, repository).value, ["flexVolume", "options", "repository"])
            != Some(JString(CvmfsRepositories[repository]))
  {
    CvmfsRepositoriesShape();
  }

  /** Every catalog key, catalog value and the secret name can be substituted
      into a template unescaped, so the lookups that succeed never produce
      malformed JSON. */
  lemma CatalogsAreSafe()
    ensures SafeString(CephfsSecretName)
    ensures forall k :: k in ReanaStoragePaths ==> SafeString(k) && SafeString(ReanaStoragePaths[k])
    ensures forall k :: k in CvmfsRepositories ==> SafeString(k) && SafeString(CvmfsRepositories[k])
  {
    ReanaStoragePathsShape();
    CvmfsRepositoriesShape();
    assert SafeString("/reana/") && SafeString(".cern.ch");
    forall k | k in ReanaStoragePaths
      ensures SafeString(k) && SafeString(ReanaStoragePaths[k])
    {
      SafeConcat("/reana/", k);
    }
    forall k | k in CvmfsRepositories
      ensures SafeString(k) && SafeString(CvmfsRepositories[k])
    {
      SafeConcat(k, ".cern.ch");
    }
  }

  /** Distinct experiments never share a CVMFS volume name. */
  lemma CvmfsVolumeNamesDistinct(e1: string, e2: string, repository: string)
    requires SafeString(e1) && SafeString(e2)
    requires repository in CvmfsRepositories
    requires e1 != e2
    ensures At(CvmfsVolume(e1, repository).value, ["name"]) != At(CvmfsVolume(e2, repository).value, ["name"])
  {
    var p := "cvmfs-";
    assert (p + e1)[|p|..] == e1 && (p + e2)[|p|..] == e2;
  }

  /** Distinct experiments never share a shared-volume name. */
  lemma SharedVolumeNamesDistinct(e1: string, e2: string)
    requires e1 in ReanaStoragePaths && e2 in ReanaStoragePaths
    requires e1 != e2
    ensures At(CephfsVolume(e1).value, ["name"]) != At(CephfsVolume(e2).value, ["name"])
    ensures At(HostpathVolume(e1).value, ["name"]) != At(HostpathVolume(e2).value, ["name"])
  {
    var s := "-shared-volume";
    assert (e1 + s)[..|e1|] == e1 && (e2 + s)[..|e2|] == e2;
    assert |e1 + s| == |e1| + |s| && |e2 + s| == |e2| + |s|;
  }

  /** A CVMFS volume, whatever its experiment, never takes the name of a
      shared volume, so both can be mounted into one pod. */
  lemma CvmfsAndSharedNamesDiffer(e1: string, repository: string, e2: string)
    requires SafeString(e1) && repository in CvmfsRepositories
    requires e2 in ReanaStoragePaths
    ensures At(CvmfsVolume(e1, repository).value, ["name"]) != At(CephfsVolume(e2).value, ["name"])
    ensures At(CvmfsVolume(e1, repository).value, ["name"]) != At(HostpathVolume(e2).value, ["name"])
  {
    var n1 := "cvmfs-" + e1;
    var n2 := e2 + "-shared-volume";
    assert n1[1] == 'v';
    assert n2[1] != 'v';
  }

  // ---- Concrete cases ----

  lemma CvmfsMountPointCms()
    ensures CvmfsMountPoint("cms") == Ok("/cvmfs/cms.cern.ch")
  {
    assert "/cvmfs/" + "cms.cern.ch" == "/cvmfs/cms.cern.ch";
  }

  lemma HostpathVolumeLhcb()
    ensures HostpathVolume("lhcb") == Ok(JObject(map[
      "name" := JString("lhcb-shared-volume"),
      "hostPath" := JObject(map["path" := JString("/reana/lhcb")])
    ]))
  {
    assert "lhcb" + "-shared-volume" == "lhcb-shared-volume";
  }

  /** `atlas` renders with the repository option `atlas`, not `atlas.cern.ch`;
      an unknown repository is rejected whatever the experiment. */
  lemma CvmfsVolumeAtlas()
    ensures At(CvmfsVolume("atlas", "atlas").value, ["flexVolume", "options", "repository"]) == Some(JString("atlas"))
    ensures CvmfsVolume("atlas", "not-a-real-repo") == Err(ValueError(UnknownRepositoryMessage))
  {
  }

  /** An unknown repository is refused before the experiment is looked at,
      so even an experiment the template could not take is answered with the
      repository error. */
  lemma CvmfsVolumeUnknownRepository(experiment: string, repository: string)
    requires repository !in CvmfsRepositories
    ensures CvmfsVolume(experiment, repository) == Err(ValueError(UnknownRepositoryMessage))
    ensures CvmfsVolume("a\"b", repository) == Err(ValueError(UnknownRepositoryMessage))
  {
  }

  /** `default` is an ordinary catalog key: it renders its own path, and a
      missing experiment does not fall back to it. */
  lemma DefaultIsOrdinaryKey(experiment: string)
    requires experiment !in ReanaStoragePaths
    ensures At(CephfsVolume("default").value, ["cephfs", "path"]) == Some(JString("/reana/default"))
    ensures CephfsVolume(experiment) == Err(KeyError(experiment))
    ensures HostpathVolume(experiment) == Err(KeyError(experiment))
  {
  }
}
