/** The older generator in `main.go`: one infra document, a master document
    with every project of the meta-repo, and a story document with the
    deployable ones, each built from scratch on every run. */
module Beam {
  import opened Outcomes
  import Strings
  import opened MapRange
  import opened Schema

  // ---------------------------------------------------------------------------
  // Tag templates and the infra document
  // ---------------------------------------------------------------------------

  /** The env-template tag of images built from master. */
  function MasterTagTemplate(): string
  {
    "{{.IMAGE_NAME}}:master-{{.DIGEST}}"
  }

  /** The env-template tag of images built for the story `name`: the story
      name, then the user, then the digest. */
  function StoryTagTemplate(name: string): string
  {
    "{{.IMAGE_NAME}}:" + name + "-{{.USER}}-{{.DIGEST}}"
  }

  /** Different stories tag their images differently. */
  lemma StoryTagTemplateInjective(a: string, b: string)
    requires StoryTagTemplate(a) == StoryTagTemplate(b)
    ensures a == b
  {
    Strings.AffixInjective("{{.IMAGE_NAME}}:", a, b, "-{{.USER}}-{{.DIGEST}}");
  }

  /** No story, whatever its name, tags its images like master: the story
      template is longer than the master one. */
  lemma StoryTagNotMaster(name: string)
    ensures StoryTagTemplate(name) != MasterTagTemplate()
  {
    assert |StoryTagTemplate(name)| == |name| + 38;
    assert |MasterTagTemplate()| == 34;
  }

  /** The infra document: kubectl deploys every `.yaml` file of
      `<manifestPath>/infra`; nothing is built. */
  function InfraConfig(manifestPath: string): Document
  {
    Document(ApiVersion, "Config", BuildConfig(None, None), [], [ManifestGlob(manifestPath, "infra")], [])
  }

  /** The infra glob is among the globs of a list of projects exactly when one
      of those projects is called "infra". */
  lemma InfraGlobShared(manifestPath: string, projects: seq<string>)
    ensures InfraConfig(manifestPath).manifests[0] in Globs(manifestPath, projects) <==> "infra" in projects
  {
    var g := Globs(manifestPath, projects);
    if ManifestGlob(manifestPath, "infra") in g {
      var i :| 0 <= i < |g| && g[i] == ManifestGlob(manifestPath, "infra");
      ManifestGlobInjective(manifestPath, projects[i], "infra");
    }
    if "infra" in projects {
      var i :| 0 <= i < |projects| && projects[i] == "infra";
      assert g[i] == ManifestGlob(manifestPath, "infra");
    }
  }

  // ---------------------------------------------------------------------------
  // baseSkaffoldConfig
  // ---------------------------------------------------------------------------

  /** A document of kind "Config" with an env-template tag policy, Google Cloud
      Build in `gcpProject`, and no artifacts, manifests or remote manifests. */
  function BaseDocument(tagTemplate: string, gcpProject: string): Document
  {
    Document(ApiVersion, "Config", BuildConfig(Some(tagTemplate), Some(gcpProject)), [], [], [])
  }

  /** baseSkaffoldConfig: a new config holding the base document. */
  method BaseSkaffoldConfig(tagTemplate: string, gcpProject: string) returns (c: Config)
    ensures fresh(c)
    ensures c.Doc() == BaseDocument(tagTemplate, gcpProject)
  {
    c := new Config(BaseDocument(tagTemplate, gcpProject));
  }

  // ---------------------------------------------------------------------------
  // enrichSkaffoldConfigs
  // ---------------------------------------------------------------------------

  /** A document after one artifact and one manifest glob have been appended
      for each of `projects`, in that order; nothing else changes. */
  function Enriched(d: Document, gcpProject: string, manifestPath: string, projects: seq<string>): Document
  {
    d.(artifacts := d.artifacts + Artifacts(gcpProject, projects),
       manifests := d.manifests + Globs(manifestPath, projects))
  }

  /** One more project appends its artifact and its glob. */
  lemma EnrichedSnoc(d: Document, gcpProject: string, manifestPath: string, projects: seq<string>, p: string)
    ensures Enriched(d, gcpProject, manifestPath, projects + [p])
         == Enriched(d, gcpProject, manifestPath, projects).(
              artifacts := Enriched(d, gcpProject, manifestPath, projects).artifacts + [DockerArtifact(gcpProject, p)],
              manifests := Enriched(d, gcpProject, manifestPath, projects).manifests + [ManifestGlob(manifestPath, p)])
  {
    ArtifactsSnoc(d.artifacts, gcpProject, projects, p);
    GlobsSnoc(d.manifests, manifestPath, projects, p);
  }

  /** The body of the range for one project: master always gains the
      project, the story only when it is deployable. */
  method EnrichOne(master: Config, story: Config, deployables: map<string, bool>, gcpProject: string,
                   manifestPath: string, project: string)
    requires master != story
    requires project in deployables
    modifies master, story
    ensures master.Doc() == old(master.Doc()).(
              artifacts := old(master.artifacts) + [DockerArtifact(gcpProject, project)],
              manifests := old(master.manifests) + [ManifestGlob(manifestPath, project)])
    ensures story.Doc() == if deployables[project] then old(story.Doc()).(
                             artifacts := old(story.artifacts) + [DockerArtifact(gcpProject, project)],
                             manifests := old(story.manifests) + [ManifestGlob(manifestPath, project)])
                           else old(story.Doc())
  {
    master.artifacts := master.artifacts + [DockerArtifact(gcpProject, project)];
    master.manifests := master.manifests + [ManifestGlob(manifestPath, project)];
    if deployables[project] {
      story.artifacts := story.artifacts + [DockerArtifact(gcpProject, project)];
      story.manifests := story.manifests + [ManifestGlob(manifestPath, project)];
    }
  }

  /** enrichSkaffoldConfigs, ranging over `deployables` in `order`: master
      gains every project and the story the deployable ones, both in visiting
      order; tag policy, build type and remote manifests are untouched and
      nothing is sorted. */
  method EnrichSkaffoldConfigs(master: Config, story: Config, deployables: map<string, bool>,
                               gcpProject: string, manifestPath: string, order: seq<string>)
    requires master != story
    requires IsOrderOf(order, deployables.Keys)
    modifies master, story
    ensures master.Doc() == Enriched(old(master.Doc()), gcpProject, manifestPath, order)
    ensures story.Doc() == Enriched(old(story.Doc()), gcpProject, manifestPath, Selected(order, deployables))
  {
    ghost var m0, s0 := master.Doc(), story.Doc();
    ghost var deployable: seq<string> := [];
    assert Enriched(m0, gcpProject, manifestPath, []) == m0;
    assert Enriched(s0, gcpProject, manifestPath, []) == s0;
    for i := 0 to |order|
      invariant deployable == Selected(order[..i], deployables)
      invariant master.Doc() == Enriched(m0, gcpProject, manifestPath, order[..i])
      invariant story.Doc() == Enriched(s0, gcpProject, manifestPath, deployable)
    {
      var project := order[i];
      SelectedPrefixStep(order, i, deployables);
      assert order[..i + 1] == order[..i] + [project];
      EnrichedSnoc(m0, gcpProject, manifestPath, order[..i], project);
      EnrichedSnoc(s0, gcpProject, manifestPath, deployable, project);
      EnrichOne(master, story, deployables, gcpProject, manifestPath, project);
      if deployables[project] {
        deployable := deployable + [project];
      } else {
        assert deployable + [] == deployable;
      }
    }
    assert order[..|order|] == order;
  }

  /** Master's two lists grow by exactly one entry per key of `deployables`,
      whatever its flag. */
  lemma MasterGrowth(d: Document, gcpProject: string, manifestPath: string, deployables: map<string, bool>,
                     order: seq<string>)
    requires IsOrderOf(order, deployables.Keys)
    ensures var r := Enriched(d, gcpProject, manifestPath, order);
      && |r.artifacts| == |d.artifacts| + |deployables|
      && |r.manifests| == |d.manifests| + |deployables|
  {
    OrderLength(order, deployables.Keys);
  }

  /** What the story gains is what master gains with the non-deployable
      projects left out: a subsequence, for artifacts. */
  lemma {:induction false} StoryArtifactsSubsequence(gcpProject: string, deployables: map<string, bool>,
                                                     order: seq<string>)
    ensures IsSubsequence(Artifacts(gcpProject, Selected(order, deployables)), Artifacts(gcpProject, order))
  {
    if order != [] {
      var init, p := order[..|order| - 1], order[|order| - 1];
      StoryArtifactsSubsequence(gcpProject, deployables, init);
      assert order == init + [p];
      ArtifactsSubsequenceStep(gcpProject, Selected(init, deployables), init, p, Lookup(deployables, p));
    }
  }

  lemma ArtifactsSubsequenceStep(gcpProject: string, sel: seq<string>, init: seq<string>, p: string, keep: bool)
    requires IsSubsequence(Artifacts(gcpProject, sel), Artifacts(gcpProject, init))
    ensures IsSubsequence(Artifacts(gcpProject, sel + if keep then [p] else []), Artifacts(gcpProject, init + [p]))
  {
    ArtifactsSnoc([], gcpProject, init, p);
    assert [] + Artifacts(gcpProject, init + [p]) == Artifacts(gcpProject, init + [p]);
    if keep {
      ArtifactsKeptStep(gcpProject, sel, init, p);
    } else {
      assert sel + [] == sel;
      SubsequenceSnoc(Artifacts(gcpProject, sel), Artifacts(gcpProject, init), DockerArtifact(gcpProject, p));
    }
  }

  lemma ArtifactsKeptStep(gcpProject: string, sel: seq<string>, init: seq<string>, p: string)
    requires IsSubsequence(Artifacts(gcpProject, sel), Artifacts(gcpProject, init))
    ensures IsSubsequence(Artifacts(gcpProject, sel + [p]), Artifacts(gcpProject, init + [p]))
  {
    ArtifactsSnoc([], gcpProject, sel, p);
    ArtifactsSnoc([], gcpProject, init, p);
    assert [] + Artifacts(gcpProject, sel + [p]) == Artifacts(gcpProject, sel + [p]);
    assert [] + Artifacts(gcpProject, init + [p]) == Artifacts(gcpProject, init + [p]);
    SnocSubsequence(Artifacts(gcpProject, sel), Artifacts(gcpProject, init), DockerArtifact(gcpProject, p));
  }

  /** What the story gains is what master gains with the non-deployable
      projects left out: a subsequence, for manifest globs. */
  lemma {:induction false} StoryGlobsSubsequence(manifestPath: string, deployables: map<string, bool>,
                                                 order: seq<string>)
    ensures IsSubsequence(Globs(manifestPath, Selected(order, deployables)), Globs(manifestPath, order))
  {
    if order != [] {
      var init, p := order[..|order| - 1], order[|order| - 1];
      StoryGlobsSubsequence(manifestPath, deployables, init);
      assert order == init + [p];
      GlobsSubsequenceStep(manifestPath, Selected(init, deployables), init, p, Lookup(deployables, p));
    }
  }

  lemma GlobsSubsequenceStep(manifestPath: string, sel: seq<string>, init: seq<string>, p: string, keep: bool)
    requires IsSubsequence(Globs(manifestPath, sel), Globs(manifestPath, init))
    ensures IsSubsequence(Globs(manifestPath, sel + if keep then [p] else []), Globs(manifestPath, init + [p]))
  {
    GlobsSnoc([], manifestPath, init, p);
    assert [] + Globs(manifestPath, init + [p]) == Globs(manifestPath, init + [p]);
    if keep {
      GlobsKeptStep(manifestPath, sel, init, p);
    } else {
      assert sel + [] == sel;
      SubsequenceSnoc(Globs(manifestPath, sel), Globs(manifestPath, init), ManifestGlob(manifestPath, p));
    }
  }

  lemma GlobsKeptStep(manifestPath: string, sel: seq<string>, init: seq<string>, p: string)
    requires IsSubsequence(Globs(manifestPath, sel), Globs(manifestPath, init))
    ensures IsSubsequence(Globs(manifestPath, sel + [p]), Globs(manifestPath, init + [p]))
  {
    GlobsSnoc([], manifestPath, sel, p);
    GlobsSnoc([], manifestPath, init, p);
    assert [] + Globs(manifestPath, sel + [p]) == Globs(manifestPath, sel + [p]);
    assert [] + Globs(manifestPath, init + [p]) == Globs(manifestPath, init + [p]);
    SnocSubsequence(Globs(manifestPath, sel), Globs(manifestPath, init), ManifestGlob(manifestPath, p));
  }

  /** The entries each document gains, as multisets: master one artifact and
      one glob for every key of `deployables`, the story for every key whose
      flag is true, and neither anything else. */
  lemma EnrichedContents(gcpProject: string, manifestPath: string, deployables: map<string, bool>,
                         order: seq<string>)
    requires IsOrderOf(order, deployables.Keys)
    ensures multiset(Artifacts(gcpProject, order))
         == multiset(set p | p in deployables :: DockerArtifact(gcpProject, p))
    ensures multiset(Globs(manifestPath, order))
         == multiset(set p | p in deployables :: ManifestGlob(manifestPath, p))
    ensures multiset(Artifacts(gcpProject, Selected(order, deployables)))
         == multiset(set p | p in Flagged(deployables) :: DockerArtifact(gcpProject, p))
    ensures multiset(Globs(manifestPath, Selected(order, deployables)))
         == multiset(set p | p in Flagged(deployables) :: ManifestGlob(manifestPath, p))
  {
    ArtifactsMultiset(gcpProject, order, deployables.Keys);
    GlobsMultiset(manifestPath, order, deployables.Keys);
    var deployable := Selected(order, deployables);
    assert IsOrderOf(deployable, Flagged(deployables));
    ArtifactsMultiset(gcpProject, deployable, Flagged(deployables));
    GlobsMultiset(manifestPath, deployable, Flagged(deployables));
  }

  // ---------------------------------------------------------------------------
  // The action
  // ---------------------------------------------------------------------------

  /** The three documents the action hands to writeConfig, for
      "skaffold-infra.yaml", "skaffold-master.yaml" and "skaffold-story.yaml". */
  method Action(storyName: string, deployables: map<string, bool>, gcpProject: string, manifestPath: string,
                order: seq<string>)
    returns (infra: Document, master: Document, story: Document)
    requires IsOrderOf(order, deployables.Keys)
    ensures infra == InfraConfig(manifestPath)
    ensures master == Enriched(BaseDocument(MasterTagTemplate(), gcpProject), gcpProject, manifestPath, order)
    ensures story == Enriched(BaseDocument(StoryTagTemplate(storyName), gcpProject), gcpProject, manifestPath,
                              Selected(order, deployables))
  {
    infra := InfraConfig(manifestPath);
    var masterConfig := BaseSkaffoldConfig(MasterTagTemplate(), gcpProject);
    var storyConfig := BaseSkaffoldConfig(StoryTagTemplate(storyName), gcpProject);
    EnrichSkaffoldConfigs(masterConfig, storyConfig, deployables, gcpProject, manifestPath, order);
    master, story := masterConfig.Doc(), storyConfig.Doc();
  }

  /** The base document enriched with `projects`: its artifacts and globs
      are exactly those of `projects`. */
  lemma EnrichedBase(tagTemplate: string, gcpProject: string, manifestPath: string, projects: seq<string>)
    ensures Enriched(BaseDocument(tagTemplate, gcpProject), gcpProject, manifestPath, projects)
         == Document(ApiVersion, "Config", BuildConfig(Some(tagTemplate), Some(gcpProject)),
                     Artifacts(gcpProject, projects), Globs(manifestPath, projects), [])
  {
    assert [] + Artifacts(gcpProject, projects) == Artifacts(gcpProject, projects);
    assert [] + Globs(manifestPath, projects) == Globs(manifestPath, projects);
  }

  /** What the action produces: master and story build with Cloud Build in the
      GCP project under different tag templates and deploy no remote
      manifests; master lists every project once, the story every deployable
      project once, its lists a subsequence of master's; the infra document
      builds nothing and deploys one glob, which master shares only when a
      project is called "infra". */
  lemma ActionDocuments(storyName: string, deployables: map<string, bool>, gcpProject: string,
                        manifestPath: string, order: seq<string>)
    requires IsOrderOf(order, deployables.Keys)
    ensures var master := Enriched(BaseDocument(MasterTagTemplate(), gcpProject), gcpProject, manifestPath, order);
      var story := Enriched(BaseDocument(StoryTagTemplate(storyName), gcpProject), gcpProject, manifestPath,
                            Selected(order, deployables));
      && master.build.cloudBuildProject == story.build.cloudBuildProject == Some(gcpProject)
      && master.build.tagTemplate != story.build.tagTemplate
      && master.remoteManifests == story.remoteManifests == []
      && |master.artifacts| == |master.manifests| == |deployables|
      && multiset(story.artifacts) == multiset(set p | p in Flagged(deployables) :: DockerArtifact(gcpProject, p))
      && multiset(story.manifests) == multiset(set p | p in Flagged(deployables) :: ManifestGlob(manifestPath, p))
      && IsSubsequence(story.artifacts, master.artifacts)
      && IsSubsequence(story.manifests, master.manifests)
      && var infra := InfraConfig(manifestPath);
         && infra.artifacts == [] && infra.manifests == [ManifestGlob(manifestPath, "infra")]
         && infra.build == BuildConfig(None, None)
         && (infra.manifests[0] in master.manifests <==> "infra" in deployables)
  {
    var sel := Selected(order, deployables);
    EnrichedBase(MasterTagTemplate(), gcpProject, manifestPath, order);
    EnrichedBase(StoryTagTemplate(storyName), gcpProject, manifestPath, sel);
    StoryTagNotMaster(storyName);
    OrderLength(order, deployables.Keys);
    EnrichedContents(gcpProject, manifestPath, deployables, order);
    StoryArtifactsSubsequence(gcpProject, deployables, order);
    StoryGlobsSubsequence(manifestPath, deployables, order);
    InfraGlobShared(manifestPath, order);
  }
}
