/** The slice of Skaffold's v1alpha2 configuration schema the generator fills,
    the story it reads, the cluster inventory, and the string formats both
    packages share. */
module Schema {
  import opened Outcomes
  import opened Strings
  import opened MapRange

  /** `v1alpha2.Version` */
  const ApiVersion := "skaffold/v1alpha2"

  /** A build artifact: image name, workspace and the Docker build's Dockerfile. */
  datatype Artifact = Artifact(imageName: string, workspace: string, dockerfilePath: string)

  /** The build block besides its artifacts: the env-template tag policy
      (`TagPolicy.EnvTemplateTagger`) and the Google Cloud Build project
      (`BuildType.GoogleCloudBuild`), each absent when its pointer is nil. */
  datatype BuildConfig = BuildConfig(tagTemplate: Option<string>, cloudBuildProject: Option<string>)

  /** The value of one SkaffoldConfig document. `manifests` and
      `remoteManifests` are the two lists of `Deploy.KubectlDeploy`. */
  datatype Document = Document(
    apiVersion: string,
    kind: string,
    build: BuildConfig,
    artifacts: seq<Artifact>,
    manifests: seq<string>,
    remoteManifests: seq<string>)

  /** A SkaffoldConfig that the generator fills in place. */
  class Config {
    var apiVersion: string
    var kind: string
    var build: BuildConfig
    var artifacts: seq<Artifact>
    var manifests: seq<string>
    var remoteManifests: seq<string>

    function Doc(): Document
      reads this
    {
      Document(apiVersion, kind, build, artifacts, manifests, remoteManifests)
    }

    constructor (d: Document)
      ensures Doc() == d
    {
      apiVersion, kind, build := d.apiVersion, d.kind, d.build;
      artifacts, manifests, remoteManifests := d.artifacts, d.manifests, d.remoteManifests;
    }
  }

  /** A story (the meta-repo's current branch): its name and, per project,
      whether the project is deployable. */
  datatype Story = Story(name: string, artifacts: map<string, bool>)

  /** One project's entry in one cluster's inventory. */
  datatype InventoryItem = InventoryItem(namespace: string, manifestType: string, targets: seq<string>)

  /** Cluster name to project name to that project's entry. */
  type Inventory = map<string, map<string, InventoryItem>>

  /** The build type both packages assign: Google Cloud Build in `gcpProject`,
      no tag policy. */
  function CloudBuild(gcpProject: string): BuildConfig
  {
    BuildConfig(None, Some(gcpProject))
  }

  /** The build artifact both packages add for a project. */
  function DockerArtifact(gcpProject: string, project: string): Artifact
  {
    Artifact("gcr.io/" + gcpProject + "/" + project, project, "Dockerfile")
  }

  /** One artifact per project, in the order given. */
  function Artifacts(gcpProject: string, projects: seq<string>): (r: seq<Artifact>)
    ensures |r| == |projects|
    ensures forall i :: 0 <= i < |projects| ==> r[i] == DockerArtifact(gcpProject, projects[i])
  {
    if projects == [] then []
    else Artifacts(gcpProject, projects[..|projects| - 1]) + [DockerArtifact(gcpProject, projects[|projects| - 1])]
  }

  /** One more project adds its artifact after those already listed. */
  lemma ArtifactsSnoc(prefix: seq<Artifact>, gcpProject: string, projects: seq<string>, p: string)
    ensures prefix + Artifacts(gcpProject, projects + [p])
         == prefix + Artifacts(gcpProject, projects) + [DockerArtifact(gcpProject, p)]
  {
    assert (projects + [p])[..|projects|] == projects;
  }

  /** A project's artifact is listed exactly when the project is, and every
      listed artifact belongs to a listed project. */
  lemma ArtifactsMembers(gcpProject: string, projects: seq<string>, p: string)
    ensures DockerArtifact(gcpProject, p) in Artifacts(gcpProject, projects) <==> p in projects
    ensures forall a :: a in Artifacts(gcpProject, projects) ==> a.workspace in projects
  {
    var r := Artifacts(gcpProject, projects);
    if DockerArtifact(gcpProject, p) in r {
      var i :| 0 <= i < |r| && r[i] == DockerArtifact(gcpProject, p);
      assert projects[i] == p;
    }
    if p in projects {
      var i :| 0 <= i < |projects| && projects[i] == p;
      assert r[i] == DockerArtifact(gcpProject, p);
    }
    forall a | a in r ensures a.workspace in projects {
      var i :| 0 <= i < |r| && r[i] == a;
      assert a.workspace == projects[i];
    }
  }

  /** The glob for every `.yaml` file directly in `<dir>/<project>`. */
  function ManifestGlob(dir: string, project: string): string
  {
    dir + "/" + project + "/*.yaml"
  }

  /** One manifest glob per project, in the order given. */
  function Globs(dir: string, projects: seq<string>): (r: seq<string>)
    ensures |r| == |projects|
    ensures forall i :: 0 <= i < |projects| ==> r[i] == ManifestGlob(dir, projects[i])
  {
    if projects == [] then []
    else Globs(dir, projects[..|projects| - 1]) + [ManifestGlob(dir, projects[|projects| - 1])]
  }

  /** One more project adds its glob after those already listed. */
  lemma GlobsSnoc(prefix: seq<string>, dir: string, projects: seq<string>, p: string)
    ensures prefix + Globs(dir, projects + [p]) == prefix + Globs(dir, projects) + [ManifestGlob(dir, p)]
  {
    assert (projects + [p])[..|projects|] == projects;
  }

  lemma ManifestGlobInjective(dir: string, p: string, q: string)
    requires ManifestGlob(dir, p) == ManifestGlob(dir, q)
    ensures p == q
  {
    AffixInjective(dir + "/", p, q, "/*.yaml");
  }

  /** The artifacts of a range over `keys`, as a multiset: one per key,
      nothing else. */
  lemma ArtifactsMultiset(gcpProject: string, order: seq<string>, keys: set<string>)
    requires IsOrderOf(order, keys)
    ensures multiset(Artifacts(gcpProject, order)) == multiset(set p | p in keys :: DockerArtifact(gcpProject, p))
  {
    var r := Artifacts(gcpProject, order);
    var target := set p | p in keys :: DockerArtifact(gcpProject, p);
    forall i, j | 0 <= i < j < |r| ensures r[i] != r[j] {
      assert r[i].workspace == order[i] && r[j].workspace == order[j];
    }
    forall a ensures a in r <==> a in target {
      if a in r {
        var i :| 0 <= i < |r| && r[i] == a;
        assert order[i] in keys;
      }
      if a in target {
        var p :| p in keys && a == DockerArtifact(gcpProject, p);
        assert p in order;
        var i :| 0 <= i < |order| && order[i] == p;
        assert r[i] == a;
      }
    }
    NoDupMultiset(r, target);
  }

  /** The globs of a range over `keys`, as a multiset: one per key, nothing else. */
  lemma GlobsMultiset(dir: string, order: seq<string>, keys: set<string>)
    requires IsOrderOf(order, keys)
    ensures multiset(Globs(dir, order)) == multiset(set p | p in keys :: ManifestGlob(dir, p))
  {
    var r := Globs(dir, order);
    var target := set p | p in keys :: ManifestGlob(dir, p);
    forall i, j | 0 <= i < j < |r| ensures r[i] != r[j] {
      if r[i] == r[j] { ManifestGlobInjective(dir, order[i], order[j]); }
    }
    forall g ensures g in r <==> g in target {
      if g in r {
        var i :| 0 <= i < |r| && r[i] == g;
        assert order[i] in keys;
      }
      if g in target {
        var p :| p in keys && g == ManifestGlob(dir, p);
        assert p in order;
        var i :| 0 <= i < |order| && order[i] == p;
        assert r[i] == g;
      }
    }
    NoDupMultiset(r, target);
  }
}
