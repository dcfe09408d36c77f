/** skaffold/config.go: filling Skaffold config documents from a story, for
    local manifest templates, for remote manifests, and per cluster from an
    inventory; rendering the local templates into the output tree. */
module Skaffold {
  import opened Outcomes
  import opened Strings
  import opened MapRange
  import opened Storage
  import opened Schema

  /** NewConfig: a document of kind "Config" with an empty kubectl deploy
      block, no build type, no tag policy and no artifacts. */
  method NewConfig() returns (c: Config)
    ensures fresh(c)
    ensures c.Doc() == Document(ApiVersion, "Config", BuildConfig(None, None), [], [], [])
  {
    c := new Config(Document(ApiVersion, "Config", BuildConfig(None, None), [], [], []));
  }

  // ---------------------------------------------------------------------------
  // templateManifests
  // ---------------------------------------------------------------------------

  /** text/template's Parse followed by Execute: the template's name, its text
      and the data it is executed with, to the output bytes or an error. */
  type Renderer = (string, seq<byte>, map<string, string>) -> Result<seq<byte>>

  /** The arguments of one templateManifests call other than the fs and the
      list of file names. */
  datatype RenderJob = RenderJob(
    storyName: string,
    templatePath: string,
    outputPath: string,
    project: string,
    render: Renderer)

  /** The data every template is executed with. */
  function TemplateVariables(storyName: string): map<string, string>
  {
    map["namespace" := storyName]
  }

  /** `<templatePath>/<project>/<name>` */
  function TemplateFile(job: RenderJob, name: string): string
  {
    JoinPath(JoinPath(job.templatePath, job.project), name)
  }

  /** `<outputPath>/<project>/<name>` */
  function OutputFile(job: RenderJob, name: string): string
  {
    JoinPath(JoinPath(job.outputPath, job.project), name)
  }

  /** What rendering template `name` yields when run against tree `s`. */
  function RenderedFrom(s: FsState, job: RenderJob, name: string): Result<seq<byte>>
  {
    match ReadFileOf(s, TemplateFile(job, name))
    case Err(e) => Err(e)
    case Ok(text) => job.render(TemplateFile(job, name), text, TemplateVariables(job.storyName))
  }

  /** One iteration of the loop: read, render, write; the first error ends it. */
  function RenderOne(s: FsState, job: RenderJob, name: string): (r: (Status, FsState))
    ensures r.0.Failure? ==> r.1 == s
  {
    match RenderedFrom(s, job, name)
    case Err(e) => (Failure(e), s)
    case Ok(bytes) => WriteFileOf(s, JoinPath(job.outputPath, job.project), name, bytes)
  }

  /** The loop over `names`, stopping at the first error. */
  function RenderAll(s: FsState, job: RenderJob, names: seq<string>): (Status, FsState)
  {
    if names == [] then (Success, s)
    else
      var r := RenderAll(s, job, names[..|names| - 1]);
      if r.0.Failure? then r else RenderOne(r.1, job, names[|names| - 1])
  }

  /** Once the loop has failed, later names change nothing. */
  lemma {:induction false} RenderAllSticky(s: FsState, job: RenderJob, names: seq<string>, k: nat)
    requires k <= |names| && RenderAll(s, job, names[..k]).0.Failure?
    ensures RenderAll(s, job, names) == RenderAll(s, job, names[..k])
  {
    if k < |names| {
      var init := names[..|names| - 1];
      assert init[..k] == names[..k];
      RenderAllSticky(s, job, init, k);
    } else {
      assert names[..k] == names;
    }
  }

  /** templateManifests */
  method TemplateManifests(fs: FileSystem, story: Story, names: seq<string>,
                           templatePath: string, outputPath: string, project: string,
                           render: Renderer)
    returns (status: Status)
    modifies fs
    ensures (status, fs.State())
         == RenderAll(old(fs.State()), RenderJob(story.name, templatePath, outputPath, project, render), names)
  {
    var job := RenderJob(story.name, templatePath, outputPath, project, render);
    var i := 0;
    while i < |names|
      invariant 0 <= i <= |names|
      invariant (Success, fs.State()) == RenderAll(old(fs.State()), job, names[..i])
    {
      assert names[..i + 1][..i] == names[..i];
      var pathToManifest := JoinPath(JoinPath(templatePath, project), names[i]);
      var b := fs.ReadFile(pathToManifest);
      if b.Err? {
        status := Failure(b.error);
        RenderAllSticky(old(fs.State()), job, names, i + 1);
        return;
      }
      var rendered := render(pathToManifest, b.value, TemplateVariables(story.name));
      if rendered.Err? {
        status := Failure(rendered.error);
        RenderAllSticky(old(fs.State()), job, names, i + 1);
        return;
      }
      var written := fs.WriteFile(JoinPath(outputPath, project), names[i], rendered.value);
      if written.Failure? {
        status := written;
        RenderAllSticky(old(fs.State()), job, names, i + 1);
        return;
      }
      i := i + 1;
    }
    assert names[..|names|] == names;
    status := Success;
  }

  lemma OutputFileInjective(job: RenderJob, n: string, m: string)
    requires OutputFile(job, n) == OutputFile(job, m)
    ensures n == m
  {
    var pre := JoinPath(job.outputPath, job.project) + "/";
    assert OutputFile(job, n) == pre + n + "";
    assert OutputFile(job, m) == pre + m + "";
    AffixInjective(pre, n, m, "");
  }

  /** The loop touches no file but the outputs of the names it is given, no
      directory listing but that of `<outputPath>/<project>`. */
  lemma {:induction false} TemplateFrame(s: FsState, job: RenderJob, names: seq<string>, path: string)
    requires forall n :: n in names ==> path != OutputFile(job, n)
    ensures var r := RenderAll(s, job, names).1;
      && (path in r.files <==> path in s.files)
      && (path in s.files ==> r.files[path] == s.files[path])
      && (path != JoinPath(job.outputPath, job.project) ==>
            (path in r.dirs <==> path in s.dirs) && (path in s.dirs ==> r.dirs[path] == s.dirs[path]))
      && r.readOnly == s.readOnly
  {
    if names != [] {
      var init, last := names[..|names| - 1], names[|names| - 1];
      assert names == init + [last];
      TemplateFrame(s, job, init, path);
      assert path != OutputFile(job, last);
    }
  }

  /** A successful loop leaves at each output path the template rendered from
      the tree as it was before the loop: provided no name's template is another
      name's output (distinct names, as a directory listing has). */
  lemma {:induction false} TemplateWrites(s: FsState, job: RenderJob, names: seq<string>)
    requires NoDup(names)
    requires forall n, m :: n in names && m in names && n != m ==> TemplateFile(job, n) != OutputFile(job, m)
    ensures var r := RenderAll(s, job, names);
      r.0.Success? ==>
        forall n :: n in names ==>
          && RenderedFrom(s, job, n).Ok?
          && OutputFile(job, n) in r.1.files
          && r.1.files[OutputFile(job, n)] == RenderedFrom(s, job, n).value
  {
    var r := RenderAll(s, job, names);
    if names != [] && r.0.Success? {
      var init, last := names[..|names| - 1], names[|names| - 1];
      assert names == init + [last];
      assert NoDup(init) by {
        forall i, j | 0 <= i < j < |init| ensures init[i] != init[j] {
          assert init[i] == names[i] && init[j] == names[j];
        }
      }
      assert last !in init by {
        forall k | 0 <= k < |init| ensures init[k] != last { assert init[k] == names[k]; }
      }
      var r1 := RenderAll(s, job, init);
      assert r1.0.Success?;
      TemplateWrites(s, job, init);
      TemplateFrame(s, job, init, TemplateFile(job, last));
      assert RenderedFrom(r1.1, job, last) == RenderedFrom(s, job, last);
      forall n | n in names
        ensures RenderedFrom(s, job, n).Ok?
        ensures OutputFile(job, n) in r.1.files
        ensures r.1.files[OutputFile(job, n)] == RenderedFrom(s, job, n).value
      {
        if n != last {
          assert n in init;
          if OutputFile(job, n) == OutputFile(job, last) { OutputFileInjective(job, n, last); }
        }
      }
    }
  }

  /** A failing loop failed at some name k: every earlier name was written,
      and the failing step and all later names changed nothing. */
  lemma {:induction false} TemplateStopsAtFirstError(s: FsState, job: RenderJob, names: seq<string>)
    requires RenderAll(s, job, names).0.Failure?
    ensures exists k :: (0 <= k < |names|
      && RenderAll(s, job, names[..k]).0.Success?
      && RenderOne(RenderAll(s, job, names[..k]).1, job, names[k]).0.Failure?
      && RenderAll(s, job, names) == (RenderOne(RenderAll(s, job, names[..k]).1, job, names[k]).0,
                                      RenderAll(s, job, names[..k]).1))
  {
    var init := names[..|names| - 1];
    if RenderAll(s, job, init).0.Failure? {
      TemplateStopsAtFirstError(s, job, init);
      var k :| 0 <= k < |init|
        && RenderAll(s, job, init[..k]).0.Success?
        && RenderOne(RenderAll(s, job, init[..k]).1, job, init[k]).0.Failure?
        && RenderAll(s, job, init) == (RenderOne(RenderAll(s, job, init[..k]).1, job, init[k]).0,
                                       RenderAll(s, job, init[..k]).1);
      assert init[..k] == names[..k] && init[k] == names[k];
    } else {
      assert init == names[..|init|];
    }
  }

  // ---------------------------------------------------------------------------
  // LocalManifests
  // ---------------------------------------------------------------------------

  datatype LocalManifestOpts = LocalManifestOpts(
    gcpProject: string,
    projectConfig: Config,
    outputPath: string,
    story: Story,
    storyConfig: Config,
    templatePath: string)

  /** Everything LocalManifests can change: the story and project documents,
      the tree, and the warnings it prints. */
  datatype LocalState = LocalState(story: Document, project: Document, fs: FsState, warnings: seq<string>)

  /** The line printed when a project's template directory cannot be listed. */
  function MissingTemplatesWarning(project: string): string
  {
    "manifests not found for " + project + ", continuing\n"
  }

  function LocalJob(opts: LocalManifestOpts, project: string, render: Renderer): RenderJob
  {
    RenderJob(opts.story.name, opts.templatePath, opts.outputPath, project, render)
  }

  /** One iteration of LocalManifests' loop, for project `p`. */
  function LocalStep(s: LocalState, opts: LocalManifestOpts, render: Renderer, p: string): (Status, LocalState)
  {
    var glob := ManifestGlob(opts.outputPath, p);
    var project := s.project.(manifests := s.project.manifests + [glob]);
    var story :=
      if Lookup(opts.story.artifacts, p) then
        s.story.(artifacts := s.story.artifacts + [DockerArtifact(opts.gcpProject, p)],
                 manifests := s.story.manifests + [glob])
      else s.story;
    var listing := ReadDirOf(s.fs, JoinPath(opts.templatePath, p));
    var names := if listing.Ok? then listing.value else [];
    var warnings := if listing.Ok? then s.warnings else s.warnings + [MissingTemplatesWarning(p)];
    var made := MkdirAllOf(s.fs, JoinPath(opts.outputPath, p));
    if made.0.Failure? then (made.0, LocalState(story, project, made.1, warnings))
    else
      var rendered := RenderAll(made.1, LocalJob(opts, p, render), names);
      (rendered.0, LocalState(story, project, rendered.1, warnings))
  }

  /** The loop over the story's projects in `order`, stopping at the first error. */
  function LocalLoop(s: LocalState, opts: LocalManifestOpts, render: Renderer, order: seq<string>): (Status, LocalState)
  {
    if order == [] then (Success, s)
    else
      var r := LocalLoop(s, opts, render, order[..|order| - 1]);
      if r.0.Failure? then r else LocalStep(r.1, opts, render, order[|order| - 1])
  }

  /** LocalManifests as a whole: replace the story's build block, run the
      loop, and on success sort both manifest lists. */
  function LocalManifestsSpec(s: LocalState, opts: LocalManifestOpts, render: Renderer, order: seq<string>): (Status, LocalState)
  {
    var start := s.(story := s.story.(build := CloudBuild(opts.gcpProject), artifacts := []));
    var r := LocalLoop(start, opts, render, order);
    if r.0.Failure? then r
    else (Success, r.1.(story := r.1.story.(manifests := Sort(r.1.story.manifests)),
                        project := r.1.project.(manifests := Sort(r.1.project.manifests))))
  }

  lemma {:induction false} LocalLoopSticky(s: LocalState, opts: LocalManifestOpts, render: Renderer, order: seq<string>, k: nat)
    requires k <= |order| && LocalLoop(s, opts, render, order[..k]).0.Failure?
    ensures LocalLoop(s, opts, render, order) == LocalLoop(s, opts, render, order[..k])
  {
    if k < |order| {
      var init := order[..|order| - 1];
      assert init[..k] == order[..k];
      LocalLoopSticky(s, opts, render, init, k);
    } else {
      assert order[..k] == order;
    }
  }

  /** After a successful prefix, the loop's next iteration is one LocalStep. */
  lemma LocalLoopStep(s: LocalState, opts: LocalManifestOpts, render: Renderer, order: seq<string>, i: nat)
    requires i < |order| && LocalLoop(s, opts, render, order[..i]).0.Success?
    ensures LocalLoop(s, opts, render, order[..i + 1])
         == LocalStep(LocalLoop(s, opts, render, order[..i]).1, opts, render, order[i])
  {
    assert order[..i + 1][..i] == order[..i];
  }

  /** The body of LocalManifests' loop for project `p`. */
  method LocalProject(fs: FileSystem, opts: LocalManifestOpts, render: Renderer, p: string, warnings: seq<string>)
    returns (status: Status, warnings': seq<string>)
    requires opts.projectConfig != opts.storyConfig
    modifies fs, opts.projectConfig, opts.storyConfig
    ensures (status, LocalState(opts.storyConfig.Doc(), opts.projectConfig.Doc(), fs.State(), warnings'))
         == LocalStep(LocalState(old(opts.storyConfig.Doc()), old(opts.projectConfig.Doc()), old(fs.State()), warnings),
                      opts, render, p)
  {
    var story, project := opts.storyConfig, opts.projectConfig;
    var glob := ManifestGlob(opts.outputPath, p);
    project.manifests := project.manifests + [glob];
    if Lookup(opts.story.artifacts, p) {
      story.artifacts := story.artifacts + [DockerArtifact(opts.gcpProject, p)];
      story.manifests := story.manifests + [glob];
    }
    var listing := fs.ReadDir(JoinPath(opts.templatePath, p));
    var names := [];
    warnings' := warnings;
    if listing.Ok? {
      names := listing.value;
    } else {
      warnings' := warnings' + [MissingTemplatesWarning(p)];
    }
    status := fs.MkdirAll(JoinPath(opts.outputPath, p));
    if status.Failure? {
      return;
    }
    status := TemplateManifests(fs, opts.story, names, opts.templatePath, opts.outputPath, p, render);
  }

  /** LocalManifests' loop over the story's projects, in `order`. */
  method LocalProjects(fs: FileSystem, opts: LocalManifestOpts, render: Renderer, order: seq<string>)
    returns (status: Status, warnings: seq<string>)
    requires opts.projectConfig != opts.storyConfig
    modifies fs, opts.projectConfig, opts.storyConfig
    ensures (status, LocalState(opts.storyConfig.Doc(), opts.projectConfig.Doc(), fs.State(), warnings))
         == LocalLoop(LocalState(old(opts.storyConfig.Doc()), old(opts.projectConfig.Doc()), old(fs.State()), []),
                      opts, render, order)
  {
    var story, project := opts.storyConfig, opts.projectConfig;
    warnings := [];
    ghost var start := LocalState(story.Doc(), project.Doc(), fs.State(), warnings);
    var i := 0;
    while i < |order|
      invariant 0 <= i <= |order|
      invariant (Success, LocalState(story.Doc(), project.Doc(), fs.State(), warnings))
             == LocalLoop(start, opts, render, order[..i])
    {
      LocalLoopStep(start, opts, render, order, i);
      status, warnings := LocalProject(fs, opts, render, order[i], warnings);
      if status.Failure? {
        LocalLoopSticky(start, opts, render, order, i + 1);
        return;
      }
      i := i + 1;
    }
    assert order[..|order|] == order;
    status := Success;
  }

  /** LocalManifests */
  method LocalManifests(fs: FileSystem, opts: LocalManifestOpts, render: Renderer, order: seq<string>)
    returns (status: Status, warnings: seq<string>)
    requires opts.projectConfig != opts.storyConfig
    requires IsOrderOf(order, opts.story.artifacts.Keys)
    modifies fs, opts.projectConfig, opts.storyConfig
    ensures (status, LocalState(opts.storyConfig.Doc(), opts.projectConfig.Doc(), fs.State(), warnings))
         == LocalManifestsSpec(LocalState(old(opts.storyConfig.Doc()), old(opts.projectConfig.Doc()), old(fs.State()), []),
                               opts, render, order)
  {
    var story, project := opts.storyConfig, opts.projectConfig;
    story.build := CloudBuild(opts.gcpProject);
    story.artifacts := [];
    ghost var s0 := LocalState(old(story.Doc()), old(project.Doc()), old(fs.State()), []);
    ghost var start := LocalState(story.Doc(), project.Doc(), fs.State(), []);
    assert start == s0.(story := s0.story.(build := CloudBuild(opts.gcpProject), artifacts := []));
    status, warnings := LocalProjects(fs, opts, render, order);
    if status.Failure? {
      return;
    }
    ghost var done := LocalState(story.Doc(), project.Doc(), fs.State(), warnings);
    story.manifests := SortStrings(story.manifests);
    project.manifests := SortStrings(project.manifests);
    assert story.Doc() == done.story.(manifests := Sort(done.story.manifests));
    assert project.Doc() == done.project.(manifests := Sort(done.project.manifests));
  }

  /** The lists LocalManifests has built after visiting the projects `done`. */
  ghost predicate LocalListsAfter(s: LocalState, opts: LocalManifestOpts, done: seq<string>, r: LocalState)
  {
    var deployable := Selected(done, opts.story.artifacts);
    && r.project == s.project.(manifests := s.project.manifests + Globs(opts.outputPath, done))
    && r.story == s.story.(artifacts := s.story.artifacts + Artifacts(opts.gcpProject, deployable),
                           manifests := s.story.manifests + Globs(opts.outputPath, deployable))
  }

  /** The documents after one step, whichever way the step ends. */
  lemma LocalStepDocs(r: LocalState, opts: LocalManifestOpts, render: Renderer, p: string)
    ensures var glob, t := ManifestGlob(opts.outputPath, p), LocalStep(r, opts, render, p).1;
      && t.project == r.project.(manifests := r.project.manifests + [glob])
      && t.story == if Lookup(opts.story.artifacts, p) then
           r.story.(artifacts := r.story.artifacts + [DockerArtifact(opts.gcpProject, p)],
                    manifests := r.story.manifests + [glob])
         else r.story
  {
  }

  /** One step appends the project's glob to the project document and, when
      the project is deployable, its artifact and glob to the story document,
      whether or not the step then fails. */
  lemma LocalStepLists(s: LocalState, opts: LocalManifestOpts, done: seq<string>, r: LocalState,
                       render: Renderer, p: string)
    requires LocalListsAfter(s, opts, done, r)
    ensures LocalListsAfter(s, opts, done + [p], LocalStep(r, opts, render, p).1)
  {
    LocalStepDocs(r, opts, render, p);
    GlobsSnoc(s.project.manifests, opts.outputPath, done, p);
    var order := done + [p];
    assert order[..|done|] == done;
    var sel := Selected(done, opts.story.artifacts);
    if Lookup(opts.story.artifacts, p) {
      assert Selected(order, opts.story.artifacts) == sel + [p];
      ArtifactsSnoc(s.story.artifacts, opts.gcpProject, sel, p);
      GlobsSnoc(s.story.manifests, opts.outputPath, sel, p);
    } else {
      assert Selected(order, opts.story.artifacts) == sel + [];
      assert sel + [] == sel;
    }
  }

  /** What the loop appends: every visited project's glob to the project
      document, the deployable ones' artifact and glob to the story document.
      On failure, exactly the projects up to and including the failing one. */
  lemma {:induction false} LocalLoopLists(s: LocalState, opts: LocalManifestOpts, render: Renderer, order: seq<string>)
    ensures var r := LocalLoop(s, opts, render, order);
      && (r.0.Success? ==> LocalListsAfter(s, opts, order, r.1))
      && (r.0.Failure? ==> exists k :: 1 <= k <= |order| && LocalListsAfter(s, opts, order[..k], r.1))
  {
    if order == [] {
      assert Selected(order, opts.story.artifacts) == [];
    } else {
      var init := order[..|order| - 1];
      LocalLoopLists(s, opts, render, init);
      LocalLoopListsStep(s, opts, render, order, LocalLoop(s, opts, render, init), LocalLoop(s, opts, render, order));
    }
  }

  /** The inductive step of LocalLoopLists: `r1` is the loop's result on all
      but the last project of `order`, `r` its result on `order`. */
  lemma LocalLoopListsStep(s: LocalState, opts: LocalManifestOpts, render: Renderer, order: seq<string>,
                           r1: (Status, LocalState), r: (Status, LocalState))
    requires order != []
    requires r == if r1.0.Failure? then r1 else LocalStep(r1.1, opts, render, order[|order| - 1])
    requires var init := order[..|order| - 1];
      && (r1.0.Success? ==> LocalListsAfter(s, opts, init, r1.1))
      && (r1.0.Failure? ==> exists k :: 1 <= k <= |init| && LocalListsAfter(s, opts, init[..k], r1.1))
    ensures r.0.Success? ==> LocalListsAfter(s, opts, order, r.1)
    ensures r.0.Failure? ==> exists k :: 1 <= k <= |order| && LocalListsAfter(s, opts, order[..k], r.1)
  {
    if r1.0.Failure? {
      EarlierFailureLists(s, opts, order, order[..|order| - 1], r1.1);
    } else {
      var init, p := order[..|order| - 1], order[|order| - 1];
      assert order == init + [p];
      LocalStepLists(s, opts, init, r1.1, render, p);
      LastStepLists(s, opts, order, r);
    }
  }

  /** A failure before the last project keeps its witness in the longer order. */
  lemma EarlierFailureLists(s: LocalState, opts: LocalManifestOpts, order: seq<string>, init: seq<string>, t: LocalState)
    requires order != [] && init == order[..|order| - 1]
    requires exists k :: 1 <= k <= |init| && LocalListsAfter(s, opts, init[..k], t)
    ensures exists k :: 1 <= k <= |order| && LocalListsAfter(s, opts, order[..k], t)
  {
    var k :| 1 <= k <= |init| && LocalListsAfter(s, opts, init[..k], t);
    PrefixOfPrefix(order, |order| - 1, k);
    assert LocalListsAfter(s, opts, order[..k], t);
  }

  /** The lists after the whole order witness a failure in its last project. */
  lemma LastStepLists(s: LocalState, opts: LocalManifestOpts, order: seq<string>, r: (Status, LocalState))
    requires order != [] && LocalListsAfter(s, opts, order, r.1)
    ensures r.0.Failure? ==> exists k :: 1 <= k <= |order| && LocalListsAfter(s, opts, order[..k], r.1)
  {
    assert order[..|order|] == order;
  }

  /** The project document: on success it holds its earlier globs plus exactly
      one manifest glob for every key of the story, deployable or not,
      sorted; nothing else in it changes. */
  lemma LocalManifestsProjectConfig(s: LocalState, opts: LocalManifestOpts, render: Renderer, order: seq<string>)
    requires IsOrderOf(order, opts.story.artifacts.Keys)
    ensures var r := LocalManifestsSpec(s, opts, render, order);
      r.0.Success? ==>
        && Sorted(r.1.project.manifests)
        && multiset(r.1.project.manifests)
           == multiset(s.project.manifests)
            + multiset(set p | p in opts.story.artifacts :: ManifestGlob(opts.outputPath, p))
        && r.1.project == s.project.(manifests := r.1.project.manifests)
  {
    var start := s.(story := s.story.(build := CloudBuild(opts.gcpProject), artifacts := []));
    LocalLoopLists(start, opts, render, order);
    GlobsMultiset(opts.outputPath, order, opts.story.artifacts.Keys);
    SortSorted(LocalLoop(start, opts, render, order).1.project.manifests);
  }

  /** The story document: its build block is always replaced by a Cloud Build
      one in the GCP project (earlier artifacts and tag policy gone); on
      success it holds one artifact per deployable project and nothing else,
      and its earlier globs plus one per deployable project, sorted. */
  lemma LocalManifestsStoryConfig(s: LocalState, opts: LocalManifestOpts, render: Renderer, order: seq<string>)
    requires IsOrderOf(order, opts.story.artifacts.Keys)
    ensures var r := LocalManifestsSpec(s, opts, render, order);
      && r.1.story.build == CloudBuild(opts.gcpProject)
      && (r.0.Success? ==>
        && multiset(r.1.story.artifacts)
           == multiset(set p | p in Flagged(opts.story.artifacts) :: DockerArtifact(opts.gcpProject, p))
        && Sorted(r.1.story.manifests)
        && multiset(r.1.story.manifests)
           == multiset(s.story.manifests)
            + multiset(set p | p in Flagged(opts.story.artifacts) :: ManifestGlob(opts.outputPath, p))
        && r.1.story.remoteManifests == s.story.remoteManifests
        && r.1.story.kind == s.story.kind)
  {
    var start := s.(story := s.story.(build := CloudBuild(opts.gcpProject), artifacts := []));
    LocalLoopLists(start, opts, render, order);
    var r := LocalLoop(start, opts, render, order);
    if r.0.Failure? {
      var k :| 1 <= k <= |order| && LocalListsAfter(start, opts, order[..k], r.1);
    } else {
      var deployable := Selected(order, opts.story.artifacts);
      assert IsOrderOf(deployable, Flagged(opts.story.artifacts));
      ArtifactsMultiset(opts.gcpProject, deployable, Flagged(opts.story.artifacts));
      GlobsMultiset(opts.outputPath, deployable, Flagged(opts.story.artifacts));
      SortSorted(r.1.story.manifests);
    }
  }

  /** A failing loop failed in the step of some project k: the projects
      before it all succeeded, and the loop's result is that of the first
      k + 1 projects. */
  lemma {:induction false} LocalLoopFailsAt(s: LocalState, opts: LocalManifestOpts, render: Renderer,
                                            order: seq<string>)
    requires LocalLoop(s, opts, render, order).0.Failure?
    ensures exists k :: (0 <= k < |order|
      && LocalLoop(s, opts, render, order[..k]).0.Success?
      && LocalLoop(s, opts, render, order) == LocalLoop(s, opts, render, order[..k + 1]))
  {
    var n := |order| - 1;
    var init := order[..n];
    if LocalLoop(s, opts, render, init).0.Failure? {
      LocalLoopSticky(s, opts, render, order, n);
      LocalLoopFailsAt(s, opts, render, init);
      var k :| 0 <= k < |init|
        && LocalLoop(s, opts, render, init[..k]).0.Success?
        && LocalLoop(s, opts, render, init) == LocalLoop(s, opts, render, init[..k + 1]);
      EarlierFailurePrefix(s, opts, render, order, n, k);
    } else {
      assert order[..n + 1] == order;
    }
  }

  /** A failure found in the first n projects, at project k, is one in the
      whole order. */
  lemma EarlierFailurePrefix(s: LocalState, opts: LocalManifestOpts, render: Renderer, order: seq<string>,
                             n: nat, k: nat)
    requires k < n <= |order|
    requires LocalLoop(s, opts, render, order[..n][..k]).0.Success?
    requires LocalLoop(s, opts, render, order) == LocalLoop(s, opts, render, order[..n][..k + 1])
    ensures LocalLoop(s, opts, render, order[..k]).0.Success?
    ensures LocalLoop(s, opts, render, order) == LocalLoop(s, opts, render, order[..k + 1])
  {
    PrefixOfPrefix(order, n, k);
    PrefixOfPrefix(order, n, k + 1);
  }

  /** A failing run stops in the step of the project that failed: every
      earlier project succeeded, the run's status and state are that step's,
      and the lists hold exactly the entries of the projects up to and
      including it, in visiting order, unsorted. */
  lemma LocalManifestsStopsAtFirstError(s: LocalState, opts: LocalManifestOpts, render: Renderer, order: seq<string>)
    ensures var r := LocalManifestsSpec(s, opts, render, order);
      var start := s.(story := s.story.(build := CloudBuild(opts.gcpProject), artifacts := []));
      r.0.Failure? ==> exists k :: (0 <= k < |order|
        && LocalLoop(start, opts, render, order[..k]).0.Success?
        && r == LocalStep(LocalLoop(start, opts, render, order[..k]).1, opts, render, order[k])
        && r.1.project.manifests == s.project.manifests + Globs(opts.outputPath, order[..k + 1])
        && r.1.story.artifacts == Artifacts(opts.gcpProject, Selected(order[..k + 1], opts.story.artifacts))
        && r.1.story.manifests
           == s.story.manifests + Globs(opts.outputPath, Selected(order[..k + 1], opts.story.artifacts)))
  {
    var start := s.(story := s.story.(build := CloudBuild(opts.gcpProject), artifacts := []));
    var r := LocalLoop(start, opts, render, order);
    if r.0.Failure? {
      LocalLoopFailsAt(start, opts, render, order);
      var k :| 0 <= k < |order|
        && LocalLoop(start, opts, render, order[..k]).0.Success?
        && r == LocalLoop(start, opts, render, order[..k + 1]);
      LocalLoopStep(start, opts, render, order, k);
      FailingStepLists(start, opts, render, order, k);
    }
  }

  /** The lists after the failing step of project k are those of the first
      k + 1 projects. */
  lemma FailingStepLists(start: LocalState, opts: LocalManifestOpts, render: Renderer, order: seq<string>, k: nat)
    requires k < |order| && LocalLoop(start, opts, render, order[..k]).0.Success?
    ensures LocalListsAfter(start, opts, order[..k + 1],
                            LocalStep(LocalLoop(start, opts, render, order[..k]).1, opts, render, order[k]).1)
  {
    var pre, p := order[..k], order[k];
    var t := LocalLoop(start, opts, render, pre).1;
    PrefixListsAfter(start, opts, render, pre);
    LocalStepLists(start, opts, pre, t, render, p);
    NextPrefix(order, k);
  }

  /** A successful loop has built the lists of all its projects. */
  lemma PrefixListsAfter(start: LocalState, opts: LocalManifestOpts, render: Renderer, pre: seq<string>)
    requires LocalLoop(start, opts, render, pre).0.Success?
    ensures LocalListsAfter(start, opts, pre, LocalLoop(start, opts, render, pre).1)
  {
    LocalLoopLists(start, opts, render, pre);
  }

  /** A project whose template directory cannot be listed is not an error:
      it renders nothing, a warning is recorded and the loop goes on. */
  lemma LocalMissingTemplatesTolerated(s: LocalState, opts: LocalManifestOpts, render: Renderer, p: string)
    requires JoinPath(opts.templatePath, p) !in s.fs.dirs
    requires JoinPath(opts.outputPath, p) !in s.fs.files && JoinPath(opts.outputPath, p) !in s.fs.readOnly
    requires !FileAncestor(s.fs, JoinPath(opts.outputPath, p))
    ensures var r := LocalStep(s, opts, render, p);
      && r.0 == Success
      && r.1.fs.files == s.fs.files
      && r.1.warnings == s.warnings + [MissingTemplatesWarning(p)]
  {
  }

  /** A project whose output directory is missing and lies under a regular
      file fails at MkdirAll: nothing is rendered and the tree is unchanged. */
  lemma LocalOutputBlocked(s: LocalState, opts: LocalManifestOpts, render: Renderer, p: string)
    requires JoinPath(opts.outputPath, p) !in s.fs.dirs && FileAncestor(s.fs, JoinPath(opts.outputPath, p))
    ensures var r := LocalStep(s, opts, render, p);
      r.0.Failure? && r.1.fs == s.fs
  {
  }

  /** Whichever orders the story's map is ranged in, a successful run leaves
      the same sorted manifest lists. */
  lemma LocalManifestsOrderIndependent(s: LocalState, opts: LocalManifestOpts, render: Renderer,
                                       order1: seq<string>, order2: seq<string>)
    requires IsOrderOf(order1, opts.story.artifacts.Keys) && IsOrderOf(order2, opts.story.artifacts.Keys)
    ensures var r1, r2 := LocalManifestsSpec(s, opts, render, order1), LocalManifestsSpec(s, opts, render, order2);
      r1.0.Success? && r2.0.Success? ==>
        r1.1.project.manifests == r2.1.project.manifests && r1.1.story.manifests == r2.1.story.manifests
  {
    var r1, r2 := LocalManifestsSpec(s, opts, render, order1), LocalManifestsSpec(s, opts, render, order2);
    if r1.0.Success? && r2.0.Success? {
      LocalManifestsProjectConfig(s, opts, render, order1);
      LocalManifestsProjectConfig(s, opts, render, order2);
      SortedUnique(r1.1.project.manifests, r2.1.project.manifests);
      LocalManifestsStoryConfig(s, opts, render, order1);
      LocalManifestsStoryConfig(s, opts, render, order2);
      SortedUnique(r1.1.story.manifests, r2.1.story.manifests);
    }
  }

  // ---------------------------------------------------------------------------
  // RemoteManifests
  // ---------------------------------------------------------------------------

  datatype RemoteManifestOpts = RemoteManifestOpts(gcpProject: string, story: Story, storyConfig: Config)

  /** `"<story>:deployment/<project>"`, a live resource kubectl deploys from. */
  function RemoteRef(storyName: string, project: string): string
  {
    storyName + ":deployment/" + project
  }

  /** One remote reference per project, in the order given. */
  function RemoteRefs(storyName: string, projects: seq<string>): (r: seq<string>)
    ensures |r| == |projects|
    ensures forall i :: 0 <= i < |projects| ==> r[i] == RemoteRef(storyName, projects[i])
  {
    if projects == [] then []
    else RemoteRefs(storyName, projects[..|projects| - 1]) + [RemoteRef(storyName, projects[|projects| - 1])]
  }

  lemma RemoteRefsSnoc(prefix: seq<string>, storyName: string, projects: seq<string>, p: string)
    ensures prefix + RemoteRefs(storyName, projects + [p])
         == prefix + RemoteRefs(storyName, projects) + [RemoteRef(storyName, p)]
  {
    assert (projects + [p])[..|projects|] == projects;
  }

  lemma RemoteRefInjective(storyName: string, p: string, q: string)
    requires RemoteRef(storyName, p) == RemoteRef(storyName, q)
    ensures p == q
  {
    var pre := storyName + ":deployment/";
    assert RemoteRef(storyName, p) == pre + p + "";
    assert RemoteRef(storyName, q) == pre + q + "";
    AffixInjective(pre, p, q, "");
  }

  /** The story document after RemoteManifests: a fresh Cloud Build block, one
      artifact and one remote reference per deployable project in visiting
      order, and the manifest globs (which it does not fill) sorted. */
  function RemoteManifestsSpec(d: Document, gcpProject: string, story: Story, order: seq<string>): Document
  {
    var deployable := Selected(order, story.artifacts);
    d.(build := CloudBuild(gcpProject),
       artifacts := Artifacts(gcpProject, deployable),
       remoteManifests := d.remoteManifests + RemoteRefs(story.name, deployable),
       manifests := Sort(d.manifests))
  }

  /** RemoteManifests; it never fails. */
  method RemoteManifests(opts: RemoteManifestOpts, order: seq<string>) returns (status: Status)
    requires IsOrderOf(order, opts.story.artifacts.Keys)
    modifies opts.storyConfig
    ensures status == Success
    ensures opts.storyConfig.Doc() == RemoteManifestsSpec(old(opts.storyConfig.Doc()), opts.gcpProject, opts.story, order)
  {
    var config := opts.storyConfig;
    config.build := CloudBuild(opts.gcpProject);
    config.artifacts := [];
    ghost var deployable: seq<string> := [];
    assert config.remoteManifests + [] == config.remoteManifests;
    for i := 0 to |order|
      invariant deployable == Selected(order[..i], opts.story.artifacts)
      invariant config.apiVersion == old(config.apiVersion) && config.kind == old(config.kind)
      invariant config.build == CloudBuild(opts.gcpProject) && config.manifests == old(config.manifests)
      invariant config.artifacts == Artifacts(opts.gcpProject, deployable)
      invariant config.remoteManifests == old(config.remoteManifests) + RemoteRefs(opts.story.name, deployable)
    {
      var project := order[i];
      SelectedPrefixStep(order, i, opts.story.artifacts);
      if opts.story.artifacts[project] {
        ArtifactsSnoc([], opts.gcpProject, deployable, project);
        RemoteRefsSnoc(old(config.remoteManifests), opts.story.name, deployable, project);
        config.artifacts := config.artifacts + [DockerArtifact(opts.gcpProject, project)];
        config.remoteManifests := config.remoteManifests + [RemoteRef(opts.story.name, project)];
        deployable := deployable + [project];
      } else {
        assert deployable + [] == deployable;
      }
    }
    assert order[..|order|] == order;
    config.manifests := SortStrings(config.manifests);
    status := Success;
  }

  /** The remote references of a range over `keys`, as a multiset. */
  lemma RemoteRefsMultiset(storyName: string, order: seq<string>, keys: set<string>)
    requires IsOrderOf(order, keys)
    ensures multiset(RemoteRefs(storyName, order)) == multiset(set p | p in keys :: RemoteRef(storyName, p))
  {
    var r := RemoteRefs(storyName, order);
    var target := set p | p in keys :: RemoteRef(storyName, p);
    forall i, j | 0 <= i < j < |r| ensures r[i] != r[j] {
      if r[i] == r[j] { RemoteRefInjective(storyName, order[i], order[j]); }
    }
    forall x ensures x in r <==> x in target {
      if x in r {
        var i :| 0 <= i < |r| && r[i] == x;
        assert order[i] in keys;
      }
      if x in target {
        var p :| p in keys && x == RemoteRef(storyName, p);
        assert p in order;
        var i :| 0 <= i < |order| && order[i] == p;
        assert r[i] == x;
      }
    }
    NoDupMultiset(r, target);
  }

  /** The story document after RemoteManifests: a Cloud Build block in the GCP
      project, exactly one artifact and one added remote reference per
      deployable project, in some order (that list is not sorted); the
      manifest globs are kept and sorted; nothing else changes. */
  lemma RemoteManifestsStoryConfig(d: Document, gcpProject: string, story: Story, order: seq<string>)
    requires IsOrderOf(order, story.artifacts.Keys)
    ensures var r := RemoteManifestsSpec(d, gcpProject, story, order);
      && r.build == CloudBuild(gcpProject)
      && multiset(r.artifacts) == multiset(set p | p in Flagged(story.artifacts) :: DockerArtifact(gcpProject, p))
      && multiset(r.remoteManifests)
         == multiset(d.remoteManifests) + multiset(set p | p in Flagged(story.artifacts) :: RemoteRef(story.name, p))
      && Sorted(r.manifests) && multiset(r.manifests) == multiset(d.manifests)
      && r.apiVersion == d.apiVersion && r.kind == d.kind
  {
    var deployable := Selected(order, story.artifacts);
    assert IsOrderOf(deployable, Flagged(story.artifacts));
    ArtifactsMultiset(gcpProject, deployable, Flagged(story.artifacts));
    RemoteRefsMultiset(story.name, deployable, Flagged(story.artifacts));
    SortSorted(d.manifests);
  }

  /** Go orders "s:deployment/b" after "s:deployment/a". */
  lemma DeploymentRefsOrder()
    ensures !Le(RemoteRef("s", "b"), RemoteRef("s", "a"))
  {
    var a, b := RemoteRef("s", "b"), RemoteRef("s", "a");
    assert a[..13] == b[..13];
    assert a[13..] == "b" && b[13..] == "a";
    LeCommonPrefix(a, b, 13);
  }

  /** Both projects of the example are deployable and kept in visiting order. */
  lemma ExampleSelection()
    ensures Selected(["b", "a"], map["a" := true, "b" := true]) == ["b", "a"]
  {
    var m := map["a" := true, "b" := true];
    assert ["b"][..0] == [];
    assert Selected(["b"], m) == ["b"];
    assert ["b", "a"][..1] == ["b"];
  }

  /** One reference per project of the example, in visiting order. */
  lemma ExampleRefs()
    ensures RemoteRefs("s", ["b", "a"]) == [RemoteRef("s", "b"), RemoteRef("s", "a")]
  {
    var refs := RemoteRefs("s", ["b", "a"]);
    assert refs == [refs[0], refs[1]];
  }

  /** The remote references are left in visiting order: two deployable
      projects visited against their name order give an unsorted list. */
  lemma RemoteRefsUnsorted(d: Document, gcpProject: string)
    requires d.remoteManifests == []
    ensures var r := RemoteManifestsSpec(d, gcpProject, Story("s", map["a" := true, "b" := true]), ["b", "a"]);
      r.remoteManifests == [RemoteRef("s", "b"), RemoteRef("s", "a")] && !Sorted(r.remoteManifests)
  {
    ExampleSelection();
    ExampleRefs();
    var refs := [RemoteRef("s", "b"), RemoteRef("s", "a")];
    assert [] + refs == refs;
    DeploymentRefsOrder();
    UnsortedPair(refs);
  }

  // ---------------------------------------------------------------------------
  // RemoteManifestsWithInventory
  // ---------------------------------------------------------------------------

  datatype RemoteManifestWithInventoryOpts = RemoteManifestWithInventoryOpts(
    clusterConfigs: map<string, Config>,
    clusters: Inventory,
    gcpProject: string,
    story: Story)

  /** The key of cluster `c`'s document in `clusterConfigs`. */
  function ClusterFile(cluster: string): string
  {
    "skaffold-" + cluster + ".yaml"
  }

  lemma ClusterFileInjective(c: string, d: string)
    requires ClusterFile(c) == ClusterFile(d)
    ensures c == d
  {
    AffixInjective("skaffold-", c, d, ".yaml");
  }

  /** `"<namespace>:<type>/<target>"` */
  function TargetRef(item: InventoryItem, target: string): string
  {
    item.namespace + ":" + item.manifestType + "/" + target
  }

  /** One reference per target, in the order given. */
  function TargetRefs(item: InventoryItem, targets: seq<string>): (r: seq<string>)
    ensures |r| == |targets|
    ensures forall i :: 0 <= i < |targets| ==> r[i] == TargetRef(item, targets[i])
  {
    if targets == [] then []
    else TargetRefs(item, targets[..|targets| - 1]) + [TargetRef(item, targets[|targets| - 1])]
  }

  lemma TargetRefsPrefixStep(prefix: seq<string>, item: InventoryItem, targets: seq<string>, j: nat)
    requires j < |targets|
    ensures prefix + TargetRefs(item, targets[..j + 1])
         == prefix + TargetRefs(item, targets[..j]) + [TargetRef(item, targets[j])]
  {
    assert targets[..j + 1][..j] == targets[..j];
  }

  /** The references project `p` of a cluster contributes: all its targets
      when its story flag is true, none otherwise. */
  function ProjectRefs(items: map<string, InventoryItem>, flags: map<string, bool>, p: string): seq<string>
  {
    if p in items && Lookup(flags, p) then TargetRefs(items[p], items[p].targets) else []
  }

  /** The references a cluster's loop over its projects (in `projOrder`) adds:
      all targets of every deployable one, project by project. */
  function ClusterRefs(items: map<string, InventoryItem>, flags: map<string, bool>, projOrder: seq<string>): seq<string>
  {
    if projOrder == [] then []
    else
      var last := projOrder[|projOrder| - 1];
      ClusterRefs(items, flags, projOrder[..|projOrder| - 1]) + ProjectRefs(items, flags, last)
  }

  lemma ClusterRefsPrefixStep(prefix: seq<string>, items: map<string, InventoryItem>, flags: map<string, bool>,
                              projOrder: seq<string>, i: nat)
    requires i < |projOrder|
    ensures prefix + ClusterRefs(items, flags, projOrder[..i + 1])
         == prefix + ClusterRefs(items, flags, projOrder[..i]) + ProjectRefs(items, flags, projOrder[i])
  {
    assert projOrder[..i + 1][..i] == projOrder[..i];
  }

  /** Cluster document `d` after its iteration of RemoteManifestsWithInventory:
      a fresh Cloud Build block, one artifact per project that is deployable
      and listed for the cluster, the cluster's references appended, and the
      manifest globs sorted. */
  function ClusterDoc(d: Document, gcpProject: string, story: Story, items: map<string, InventoryItem>,
                      artOrder: seq<string>, projOrder: seq<string>): Document
  {
    d.(build := CloudBuild(gcpProject),
       artifacts := Artifacts(gcpProject, Selected(artOrder, Restrict(story.artifacts, items.Keys))),
       remoteManifests := d.remoteManifests + ClusterRefs(items, story.artifacts, projOrder),
       manifests := Sort(d.manifests))
  }

  /** `currentClusterProjects`: the set of the cluster's project names, as a
      map to true. */
  method ClusterProjects(items: map<string, InventoryItem>, projOrder: seq<string>)
    returns (current: map<string, bool>)
    requires IsOrderOf(projOrder, items.Keys)
    ensures forall n :: Lookup(current, n) <==> n in items
  {
    current := map[];
    for i := 0 to |projOrder|
      invariant forall n :: Lookup(current, n) <==> n in projOrder[..i]
    {
      assert projOrder[..i + 1] == projOrder[..i] + [projOrder[i]];
      current := current[projOrder[i] := true];
    }
    assert projOrder[..|projOrder|] == projOrder;
  }

  /** The cluster's artifact loop: one artifact per project of the story, in
      `artOrder`, that is deployable and in `current`, the cluster's projects
      `listed`. */
  method AddClusterArtifacts(config: Config, gcpProject: string, flags: map<string, bool>,
                             current: map<string, bool>, ghost listed: set<string>, artOrder: seq<string>)
    requires IsOrderOf(artOrder, flags.Keys)
    requires forall n :: Lookup(current, n) <==> n in listed
    modifies config
    ensures config.Doc()
         == old(config.Doc()).(artifacts := old(config.artifacts)
                                          + Artifacts(gcpProject, Selected(artOrder, Restrict(flags, listed))))
  {
    ghost var both := Restrict(flags, listed);
    ghost var deployable: seq<string> := [];
    assert config.artifacts + [] == config.artifacts;
    for i := 0 to |artOrder|
      invariant deployable == Selected(artOrder[..i], both)
      invariant config.Doc() == old(config.Doc()).(artifacts := old(config.artifacts) + Artifacts(gcpProject, deployable))
    {
      var project := artOrder[i];
      SelectedPrefixStep(artOrder, i, both);
      if flags[project] && Lookup(current, project) {
        ArtifactsSnoc(old(config.artifacts), gcpProject, deployable, project);
        config.artifacts := config.artifacts + [DockerArtifact(gcpProject, project)];
        deployable := deployable + [project];
      } else {
        assert deployable + [] == deployable;
      }
    }
    assert artOrder[..|artOrder|] == artOrder;
  }

  /** The inner loop: one reference per target of `item`, in target order. */
  method AddTargetRefs(config: Config, item: InventoryItem)
    modifies config
    ensures config.Doc() == old(config.Doc()).(remoteManifests := old(config.remoteManifests) + TargetRefs(item, item.targets))
  {
    assert config.remoteManifests + [] == config.remoteManifests;
    for j := 0 to |item.targets|
      invariant config.Doc()
             == old(config.Doc()).(remoteManifests := old(config.remoteManifests) + TargetRefs(item, item.targets[..j]))
    {
      TargetRefsPrefixStep(old(config.remoteManifests), item, item.targets, j);
      config.remoteManifests := config.remoteManifests + [TargetRef(item, item.targets[j])];
    }
    assert item.targets[..|item.targets|] == item.targets;
  }

  /** The cluster's reference loop: the targets of each of its projects, in
      `projOrder`, whose story flag is true. */
  method AddClusterRefs(config: Config, flags: map<string, bool>, items: map<string, InventoryItem>,
                        projOrder: seq<string>)
    requires IsOrderOf(projOrder, items.Keys)
    modifies config
    ensures config.Doc()
         == old(config.Doc()).(remoteManifests := old(config.remoteManifests) + ClusterRefs(items, flags, projOrder))
  {
    assert config.remoteManifests + [] == config.remoteManifests;
    for i := 0 to |projOrder|
      invariant config.Doc()
             == old(config.Doc()).(remoteManifests := old(config.remoteManifests) + ClusterRefs(items, flags, projOrder[..i]))
    {
      var name := projOrder[i];
      ClusterRefsPrefixStep(old(config.remoteManifests), items, flags, projOrder, i);
      if Lookup(flags, name) {
        AddTargetRefs(config, items[name]);
      } else {
        assert config.remoteManifests + [] == config.remoteManifests;
      }
    }
    assert projOrder[..|projOrder|] == projOrder;
  }

  /** The body of RemoteManifestsWithInventory's loop for one cluster, whose
      document is `config` and whose projects are `items`. */
  method EnrichCluster(config: Config, gcpProject: string, story: Story, items: map<string, InventoryItem>,
                       artOrder: seq<string>, projOrder: seq<string>)
    requires IsOrderOf(artOrder, story.artifacts.Keys)
    requires IsOrderOf(projOrder, items.Keys)
    modifies config
    ensures config.Doc() == ClusterDoc(old(config.Doc()), gcpProject, story, items, artOrder, projOrder)
  {
    ghost var d := config.Doc();
    config.build := CloudBuild(gcpProject);
    config.artifacts := [];
    var currentClusterProjects := ClusterProjects(items, projOrder);
    ghost var artifacts := Artifacts(gcpProject, Selected(artOrder, Restrict(story.artifacts, items.Keys)));
    assert [] + artifacts == artifacts;
    AddClusterArtifacts(config, gcpProject, story.artifacts, currentClusterProjects, items.Keys, artOrder);
    assert config.Doc() == d.(build := CloudBuild(gcpProject), artifacts := artifacts);
    AddClusterRefs(config, story.artifacts, items, projOrder);
    ghost var refs := d.remoteManifests + ClusterRefs(items, story.artifacts, projOrder);
    assert config.Doc() == d.(build := CloudBuild(gcpProject), artifacts := artifacts, remoteManifests := refs);
    config.manifests := SortStrings(config.manifests);
  }

  /** The cluster documents `cfg` once the clusters `done` are enriched:
      those hold their content `after`, the others their content `before`. */
  ghost predicate EnrichedUpTo(cfg: map<string, Config>, before: map<string, Document>, after: map<string, Document>,
                               done: seq<string>)
    reads cfg.Values
  {
    forall c :: c in cfg && c in before && c in after ==>
      cfg[c].Doc() == if c in done then after[c] else before[c]
  }

  /** Once every cluster is visited, every document holds its `after`. */
  lemma EnrichedAll(cfg: map<string, Config>, before: map<string, Document>, after: map<string, Document>,
                    order: seq<string>)
    requires EnrichedUpTo(cfg, before, after, order[..|order|])
    requires forall c :: c in cfg ==> c in order
    ensures forall c :: c in cfg && c in before && c in after ==> cfg[c].Doc() == after[c]
  {
    assert order[..|order|] == order;
  }

  /** One iteration of RemoteManifestsWithInventory's loop: EnrichCluster on
      `config`, the document of `cluster`, which then holds `after[cluster]`;
      the other documents keep their content. */
  method EnrichListedCluster(ghost cfg: map<string, Config>, ghost before: map<string, Document>,
                             ghost after: map<string, Document>, ghost done: seq<string>, cluster: string, config: Config,
                             gcpProject: string, story: Story, items: map<string, InventoryItem>,
                             artOrder: seq<string>, projOrder: seq<string>)
    requires cluster in cfg && cfg[cluster] == config && cluster !in done
    requires forall c :: c in cfg && c != cluster ==> cfg[c] != config
    requires cluster in before && cluster in after
    requires after[cluster] == ClusterDoc(before[cluster], gcpProject, story, items, artOrder, projOrder)
    requires IsOrderOf(artOrder, story.artifacts.Keys)
    requires IsOrderOf(projOrder, items.Keys)
    requires EnrichedUpTo(cfg, before, after, done)
    modifies config
    ensures EnrichedUpTo(cfg, before, after, done + [cluster])
  {
    EnrichCluster(config, gcpProject, story, items, artOrder, projOrder);
    assert forall c :: c in cfg && c != cluster ==> cfg[c].Doc() == old(cfg[c].Doc());
  }

  /** RemoteManifestsWithInventory, visiting the clusters in `clusterOrder`
      and, for cluster `c`, the story's projects in `artOrders[c]` and the
      cluster's projects in `projOrders[c]`. Only the clusters' documents
      change, each as ClusterDoc says. */
  method RemoteManifestsWithInventory(opts: RemoteManifestWithInventoryOpts, clusterOrder: seq<string>,
                                      artOrders: map<string, seq<string>>, projOrders: map<string, seq<string>>)
    requires IsOrderOf(clusterOrder, opts.clusters.Keys)
    requires forall c :: c in opts.clusters ==>
      && ClusterFile(c) in opts.clusterConfigs
      && c in artOrders && IsOrderOf(artOrders[c], opts.story.artifacts.Keys)
      && c in projOrders && IsOrderOf(projOrders[c], opts.clusters[c].Keys)
    requires forall c, c' :: c in opts.clusters && c' in opts.clusters && c != c' ==>
      opts.clusterConfigs[ClusterFile(c)] != opts.clusterConfigs[ClusterFile(c')]
    modifies opts.clusterConfigs.Values
    ensures forall c :: c in opts.clusters ==>
      opts.clusterConfigs[ClusterFile(c)].Doc()
      == ClusterDoc(old(opts.clusterConfigs[ClusterFile(c)].Doc()), opts.gcpProject, opts.story,
                    opts.clusters[c], artOrders[c], projOrders[c])
  {
    ghost var cfg := map c | c in opts.clusters :: opts.clusterConfigs[ClusterFile(c)];
    ghost var before := map c | c in opts.clusters :: cfg[c].Doc();
    ghost var after := map c | c in opts.clusters ::
      ClusterDoc(before[c], opts.gcpProject, opts.story, opts.clusters[c], artOrders[c], projOrders[c]);
    for i := 0 to |clusterOrder|
      invariant EnrichedUpTo(cfg, before, after, clusterOrder[..i])
    {
      var cluster := clusterOrder[i];
      var clusterYAML := ClusterFile(cluster);
      var config := opts.clusterConfigs[clusterYAML];
      assert config == cfg[cluster];
      NoDupPrefixStep(clusterOrder, i);
      EnrichListedCluster(cfg, before, after, clusterOrder[..i], cluster, config,
                          opts.gcpProject, opts.story, opts.clusters[cluster], artOrders[cluster], projOrders[cluster]);
    }
    EnrichedAll(cfg, before, after, clusterOrder);
    forall c | c in opts.clusters
      ensures opts.clusterConfigs[ClusterFile(c)].Doc()
           == ClusterDoc(old(opts.clusterConfigs[ClusterFile(c)].Doc()), opts.gcpProject, opts.story,
                         opts.clusters[c], artOrders[c], projOrders[c])
    {
      assert cfg[c].Doc() == after[c];
    }
  }

  /** The references `targets` give, as a set: one per target. */
  lemma TargetRefsMembers(item: InventoryItem, targets: seq<string>, x: string)
    ensures x in TargetRefs(item, targets) <==> exists t :: t in targets && x == TargetRef(item, t)
  {
    var r := TargetRefs(item, targets);
    if x in r {
      var i :| 0 <= i < |r| && r[i] == x;
      assert targets[i] in targets;
    }
    if exists t :: t in targets && x == TargetRef(item, t) {
      var t :| t in targets && x == TargetRef(item, t);
      var i :| 0 <= i < |targets| && targets[i] == t;
      assert r[i] == x;
    }
  }

  /** A reference is among those of the projects visited in `projOrder`
      exactly when it comes from one of them that the cluster lists and the
      story flags. */
  lemma {:induction false} ClusterRefsMembers(items: map<string, InventoryItem>, flags: map<string, bool>,
                                              projOrder: seq<string>, x: string)
    ensures x in ClusterRefs(items, flags, projOrder)
        <==> exists p :: p in projOrder && x in ProjectRefs(items, flags, p)
  {
    if projOrder != [] {
      var init, last := projOrder[..|projOrder| - 1], projOrder[|projOrder| - 1];
      assert projOrder == init + [last];
      ClusterRefsMembers(items, flags, init, x);
      if x in ClusterRefs(items, flags, init) {
        var p :| p in init && x in ProjectRefs(items, flags, p);
        assert p in projOrder;
      }
      if exists p :: p in projOrder && x in ProjectRefs(items, flags, p) {
        var p :| p in projOrder && x in ProjectRefs(items, flags, p);
        if p != last {
          assert p in init;
        }
      }
    }
  }

  /** Cluster `c`'s references after RemoteManifestsWithInventory: those it had,
      and `"<ns>:<type>/<target>"` for each target of each project the cluster
      lists whose story flag is true; nothing from any other project. */
  lemma ClusterDocRemoteRefs(d: Document, gcpProject: string, story: Story, items: map<string, InventoryItem>,
                             artOrder: seq<string>, projOrder: seq<string>, x: string)
    requires IsOrderOf(projOrder, items.Keys)
    ensures x in ClusterDoc(d, gcpProject, story, items, artOrder, projOrder).remoteManifests
        <==> x in d.remoteManifests
             || exists p, t :: p in items && Lookup(story.artifacts, p) && t in items[p].targets
                              && x == TargetRef(items[p], t)
  {
    ClusterRefsMembers(items, story.artifacts, projOrder, x);
    if x in ClusterRefs(items, story.artifacts, projOrder) {
      var p :| p in projOrder && x in ProjectRefs(items, story.artifacts, p);
      TargetRefsMembers(items[p], items[p].targets, x);
      var t :| t in items[p].targets && x == TargetRef(items[p], t);
    }
    if exists p, t :: p in items && Lookup(story.artifacts, p) && t in items[p].targets && x == TargetRef(items[p], t) {
      var p, t :| p in items && Lookup(story.artifacts, p) && t in items[p].targets && x == TargetRef(items[p], t);
      TargetRefsMembers(items[p], items[p].targets, x);
      assert p in projOrder && x in ProjectRefs(items, story.artifacts, p);
    }
  }

  /** Cluster `c`'s document after RemoteManifestsWithInventory: a Cloud Build
      block in the GCP project; an artifact for project `p` exactly when the
      story flags `p` and the cluster lists it, once each and for no other
      project; its own manifest globs, sorted. */
  lemma ClusterDocArtifacts(d: Document, gcpProject: string, story: Story, items: map<string, InventoryItem>,
                            artOrder: seq<string>, projOrder: seq<string>)
    requires IsOrderOf(artOrder, story.artifacts.Keys)
    ensures var r := ClusterDoc(d, gcpProject, story, items, artOrder, projOrder);
      && r.build == CloudBuild(gcpProject)
      && (forall p :: DockerArtifact(gcpProject, p) in r.artifacts <==> p in items && Lookup(story.artifacts, p))
      && (forall a :: a in r.artifacts ==> a.workspace in items)
      && multiset(r.artifacts)
         == multiset(set p | p in items && Lookup(story.artifacts, p) :: DockerArtifact(gcpProject, p))
      && Sorted(r.manifests) && multiset(r.manifests) == multiset(d.manifests)
  {
    var listed := set p | p in items && Lookup(story.artifacts, p);
    var sel := Selected(artOrder, Restrict(story.artifacts, items.Keys));
    assert IsOrderOf(sel, listed);
    forall p ensures DockerArtifact(gcpProject, p) in Artifacts(gcpProject, sel) <==> p in listed {
      ArtifactsMembers(gcpProject, sel, p);
    }
    ArtifactsMembers(gcpProject, sel, "");
    ArtifactsMultiset(gcpProject, sel, listed);
    SortSorted(d.manifests);
  }
}
