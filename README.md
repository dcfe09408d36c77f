# skaffold-beam config enrichment, in Dafny

skaffold-beam generates Skaffold `v1alpha2` configuration documents for a
*story*: a branch of a meta-repository with a name and, for each project of
the meta-repo, a flag that says whether the project is deployable in that
story. This project models the part that fills those documents. It covers
two packages.

- The `skaffold` package (`skaffold/config.go`), modelled in `Skaffold`:
  - `NewConfig`, the empty document;
  - `LocalManifests`, which adds a manifest glob per project to a project
    document and a build artifact plus a glob per deployable project to the
    story document, renders each project's templates to the output tree, and
    sorts both glob lists;
  - `RemoteManifests`, which adds an artifact and a `"<story>:deployment/<p>"`
    reference per deployable project;
  - `RemoteManifestsWithInventory`, which fills one document per cluster of
    an inventory with the artifacts and `"<ns>:<type>/<target>"` references
    of the deployable projects that cluster lists;
  - `templateManifests`, which reads, renders and writes one project's
    template files and stops at the first error.
- The older generator in `main.go`, modelled in `Beam`:
  - the infra document;
  - the master and story tag templates;
  - `baseSkaffoldConfig`;
  - `enrichSkaffoldConfigs`, which adds an artifact and a glob per project to
    a master document and per deployable project to a story document;
  - the action that builds the three documents it writes.

The supporting modules:

- `Outcomes`: Go's error returns as values.
- `Strings`: Go's string order and `sort.Strings`, which sorts and keeps
  every element.
- `MapRange`: Go's `for k := range m`. The range order is an explicit
  sequence that lists every key once (`IsOrderOf`), because Go leaves it
  unspecified. A missing key reads as false (`Lookup`).
- `Storage`: the four afero calls the core makes (ReadFile, ReadDir,
  MkdirAll, WriteFile), on a mutable file tree that is a class over maps.
- `Schema`: the document (`Document`), the in-place config (`Config`), the
  story, the inventory, and the artifact and glob formats both packages
  share.

Each document the code mutates is a `Config` object. Its methods are
specified by a function of the old document (`ClusterDoc`,
`RemoteManifestsSpec`, `LocalManifestsSpec`, `Enriched`). Lemmas about that
function state what the source promises. Because map order is unspecified,
unsorted lists are described as multisets or subsequences, never by a fixed
order.

What the code does that a reader may not expect:

- No list of build artifacts is ever sorted.
- `RemoteManifests` and `RemoteManifestsWithInventory` sort the manifest
  globs, which they do not fill. The remote references they add are left in
  range order. `RemoteRefsUnsorted` gives a run in which that list is not
  sorted.
- No tag policy is set in the `skaffold` package: the tag calculation is
  commented out.
- The master document of `main.go` gets a build artifact for every project,
  not only the deployable ones.

## Model

| member | source | states |
|---|---|---|
| Strings.Sort | skaffold/config.go:98-99 | the value `sort.Strings` leaves has the same elements, counted with multiplicity, as its input |
| Strings.SortSorted | skaffold/config.go:98-99 | that value is in increasing Go string order |
| Strings.SortedUnique | skaffold/config.go:98-99 | two sorted lists with the same elements are equal, so the sorted result depends only on the elements |
| Strings.SortPermutationInvariant | skaffold/config.go:98-99 | sorting two permutations of a list gives one list |
| Strings.SortStrings | skaffold/config.go:98-99 | `sort.Strings`: the result is sorted, is a permutation of the input, and equals `Sort` of it |
| MapRange.Selected | skaffold/config.go:122-123 | the keys a range keeps under `if m[k]` are exactly the visited keys whose flag is true, each once |
| MapRange.OrderLength | skaffold/config.go:63 | a range over a map visits as many keys as the map has |
| MapRange.SelectedMultiset | skaffold/config.go:63-70 | a full range that keeps the true keys keeps each flagged key exactly once |
| Storage.ReadFileOf | skaffold/config.go:193 | reading a file succeeds exactly when the file exists |
| Storage.ReadDirOf | skaffold/config.go:84 | listing a directory succeeds exactly when it exists |
| Storage.MkdirAllOf | skaffold/config.go:89 | `MkdirAll` leaves the files alone and succeeds exactly when the directory then exists; it fails, changing nothing, when the path is missing and a proper ancestor of it is a regular file |
| Storage.MkdirUnderFile | skaffold/config.go:89 | creating `out/p` where `out` is a regular file fails |
| Storage.WriteFileOf | skaffold/config.go:211 | a successful write replaces exactly one file's content; a failed one changes nothing; no directory appears or vanishes |
| Storage.FileSystem.constructor | skaffold/config.go:51 | the tree holds the given state |
| Storage.FileSystem.ReadFile | skaffold/config.go:193 | `afero.ReadFile` returns what `ReadFileOf` says |
| Storage.FileSystem.ReadDir | skaffold/config.go:84 | `afero.ReadDir` returns what `ReadDirOf` says |
| Storage.FileSystem.MkdirAll | skaffold/config.go:89 | `fs.MkdirAll` changes the tree as `MkdirAllOf` says |
| Storage.FileSystem.WriteFile | skaffold/config.go:211 | `afero.WriteFile` changes the tree as `WriteFileOf` says |
| Schema.Config.constructor | skaffold/config.go:17-25 | a config holding the given document |
| Schema.DockerArtifact | skaffold/config.go:71-75 | computes the artifact of project `p`: image `gcr.io/<gcp>/<p>`, workspace `p`, Dockerfile `Dockerfile` |
| Schema.Artifacts | skaffold/config.go:71-75 | one artifact per project, in order: image `gcr.io/<gcp>/<p>`, workspace `p`, Dockerfile `Dockerfile` |
| Schema.ManifestGlob | skaffold/config.go:67 | computes the glob `<dir>/<p>/*.yaml` that deploys project `p`'s manifests from directory `dir` |
| Schema.Globs | skaffold/config.go:64-68 | one glob `<dir>/<p>/*.yaml` per project, in order |
| Schema.ArtifactsMembers | skaffold/config.go:71-75 | a project's artifact is listed exactly when the project is, and every artifact belongs to a listed project |
| Schema.ArtifactsMultiset | skaffold/config.go:63-75 | the artifacts of a full range are one per key and nothing else |
| Schema.GlobsMultiset | skaffold/config.go:63-68 | the globs of a full range are one per key and nothing else |
| Schema.ManifestGlobInjective | skaffold/config.go:67 | different projects have different globs |
| Skaffold.NewConfig | skaffold/config.go:17-25 | a new document of kind "Config", with no build type, no tag policy, no artifacts and empty deploy lists |
| Skaffold.RenderAll | skaffold/config.go:191-216 | computes the template loop: each listed file, in list order, is read from the template tree, rendered and written under the output tree, and the first error ends the loop and is its status |
| Skaffold.RenderOne | skaffold/config.go:191-213 | one template file: a failed read, render or write leaves the tree as it was |
| Skaffold.RenderAllSticky | skaffold/config.go:194-213 | once the loop has failed, later files change nothing |
| Skaffold.TemplateManifests | skaffold/config.go:190-217 | the status and the new tree are those of reading, rendering with `namespace = story name`, and writing each file in list order, stopping at the first error |
| Skaffold.OutputFileInjective | skaffold/config.go:210 | different template names have different output paths |
| Skaffold.TemplateFrame | skaffold/config.go:190-217 | no file but the listed outputs changes, and no directory listing but the output directory's |
| Skaffold.TemplateWrites | skaffold/config.go:190-217 | after a successful loop, each output path holds its template rendered from the tree as it was before |
| Skaffold.TemplateStopsAtFirstError | skaffold/config.go:193-213 | a failing loop failed at some file k: all earlier files were written, and the failing step and all later ones changed nothing |
| Skaffold.LocalStep | skaffold/config.go:64-95 | computes one project's iteration: its glob goes to the project document, and its artifact and glob to the story document when the story flags it; its template directory is listed (a missing one gives a warning and no files), its output directory is created, and its templates are rendered; a failed mkdir or render is the status |
| Skaffold.LocalLoop | skaffold/config.go:63-96 | computes the loop over the story's projects: `LocalStep` for each key in range order, the first failing step ending it |
| Skaffold.LocalManifestsSpec | skaffold/config.go:57-99 | computes the whole call: the story's build block becomes Cloud Build in the GCP project and its artifact list is emptied, the loop runs, and on success both glob lists are sorted; a failure returns the state the loop left, unsorted |
| Skaffold.LocalProject | skaffold/config.go:63-95 | one iteration for project `p` changes both documents, the tree and the warnings as `LocalStep` says |
| Skaffold.LocalProjects | skaffold/config.go:63-96 | the loop over the story's projects, in range order, stopping at the first error, is `LocalLoop` |
| Skaffold.LocalManifests | skaffold/config.go:51-102 | the status, both documents, the tree and the warnings are `LocalManifestsSpec` of the old state |
| Skaffold.LocalLoopSticky | skaffold/config.go:89-95 | once a project has failed, the remaining projects change nothing |
| Skaffold.LocalStepDocs | skaffold/config.go:63-82 | one step appends the glob to the project document, and, for a deployable project, the artifact and glob to the story document, however the step ends |
| Skaffold.LocalStepLists | skaffold/config.go:63-82 | one step extends the lists built so far by the project just visited |
| Skaffold.LocalLoopLists | skaffold/config.go:63-96 | the loop appends every visited project's glob to the project document and each deployable one's artifact and glob to the story document; on failure, exactly for the projects of some non-empty prefix of the range order (`LocalManifestsStopsAtFirstError` names it) |
| Skaffold.LocalLoopFailsAt | skaffold/config.go:63-96 | a failing loop has a first failing project `k`: the loop over the projects before it succeeds, and the whole loop ends as the loop up to and including `k` does |
| Skaffold.FailingStepLists | skaffold/config.go:63-95 | the failing project's step, taken after the projects before it succeeded, leaves lists holding exactly the entries of those projects and of itself |
| Skaffold.LocalManifestsProjectConfig | skaffold/config.go:63-99 | on success the project document holds its earlier globs plus exactly one glob per story key, whatever the flag, sorted; nothing else in it changes |
| Skaffold.LocalManifestsStoryConfig | skaffold/config.go:57-98 | the story's build block is always replaced by Cloud Build in the GCP project; on success it has one artifact per deployable project and nothing else, plus its earlier globs and one per deployable project, sorted; remote manifests and kind are kept |
| Skaffold.LocalManifestsStopsAtFirstError | skaffold/config.go:89-95 | a failing run stops at its first failing project `k`: every project before `k` succeeded, the result is `k`'s `LocalStep` on the state they left, and the lists hold exactly the entries of the projects up to and including `k`, in range order, unsorted |
| Skaffold.LocalMissingTemplatesTolerated | skaffold/config.go:84-91 | an unlistable template directory is not an error: when the output directory can be created (no file or refused path at it, no file above it), nothing is rendered, a warning is recorded and the step succeeds |
| Skaffold.LocalOutputBlocked | skaffold/config.go:89-91 | a project whose output directory is missing and lies under a regular file fails its step, and the tree is left as it was |
| Skaffold.LocalManifestsOrderIndependent | skaffold/config.go:63-99 | any two range orders that both succeed leave the same sorted glob lists |
| Skaffold.RemoteRef | skaffold/config.go:133 | computes a project's remote reference `<story>:deployment/<p>` |
| Skaffold.RemoteRefs | skaffold/config.go:130-134 | one `"<story>:deployment/<p>"` per project, in order |
| Skaffold.RemoteRefInjective | skaffold/config.go:133 | different projects have different references |
| Skaffold.RemoteManifestsSpec | skaffold/config.go:116-138 | computes the story document after the call: Cloud Build in the GCP project, exactly the deployable projects' artifacts in range order, a reference per deployable project appended to the remote manifests, and the globs sorted |
| Skaffold.RemoteManifests | skaffold/config.go:110-141 | it always returns nil, and the story document becomes `RemoteManifestsSpec` of the old one |
| Skaffold.RemoteRefsMultiset | skaffold/config.go:122-136 | the references of a range are one per key and nothing else |
| Skaffold.RemoteManifestsStoryConfig | skaffold/config.go:116-140 | Cloud Build in the GCP project; exactly one artifact and one added reference per deployable project; the globs are kept and sorted; kind and version are kept |
| Skaffold.RemoteRefsUnsorted | skaffold/config.go:122-138 | the remote references stay in range order: a story with projects "a" and "b" visited as b, a gives an unsorted list |
| Skaffold.ClusterFile | skaffold/config.go:153 | computes the document key `skaffold-<c>.yaml` of cluster `c` |
| Skaffold.ClusterFileInjective | skaffold/config.go:153 | different clusters have different document keys |
| Skaffold.TargetRef | skaffold/config.go:180 | computes a target's reference `<ns>:<type>/<target>` from the inventory item's namespace and manifest type |
| Skaffold.TargetRefs | skaffold/config.go:176-182 | one `"<ns>:<type>/<target>"` per target, in target order |
| Skaffold.TargetRefsMembers | skaffold/config.go:176-182 | a reference is among a project's exactly when it is that of one of its targets |
| Skaffold.ProjectRefs | skaffold/config.go:174-184 | computes one project's contribution to a cluster: the references of all its targets when its story flag is true, none otherwise |
| Skaffold.ClusterRefs | skaffold/config.go:174-184 | computes the references a cluster's loop adds: the contributions of its projects, project by project in range order |
| Skaffold.ClusterRefsMembers | skaffold/config.go:174-184 | a cluster's added references are exactly those of the visited projects that the cluster lists and the story flags, a missing flag reading as false |
| Skaffold.ClusterProjects | skaffold/config.go:159-162 | `currentClusterProjects` maps exactly the cluster's projects to true |
| Skaffold.AddClusterArtifacts | skaffold/config.go:164-172 | appends one artifact per story project, in range order, that is deployable and listed for the cluster; nothing else changes |
| Skaffold.AddTargetRefs | skaffold/config.go:176-182 | appends one reference per target of the project, in target order |
| Skaffold.AddClusterRefs | skaffold/config.go:174-184 | appends the references of each listed project whose story flag is true, project by project |
| Skaffold.ClusterDoc | skaffold/config.go:155-186 | computes a cluster document after its iteration: Cloud Build in the GCP project, one artifact per story key that is flagged and listed for the cluster, in range order, the cluster's references appended, and the globs sorted |
| Skaffold.EnrichCluster | skaffold/config.go:153-186 | one cluster's iteration changes its document as `ClusterDoc` says |
| Skaffold.EnrichListedCluster | skaffold/config.go:152-187 | enriching one more cluster keeps every other cluster's document as it was |
| Skaffold.EnrichedAll | skaffold/config.go:152 | once every cluster is visited, every document holds its enriched content |
| Skaffold.RemoteManifestsWithInventory | skaffold/config.go:151-188 | given `skaffold-<c>.yaml` for each cluster, each cluster's document becomes `ClusterDoc` of the old one |
| Skaffold.ClusterDocArtifacts | skaffold/config.go:155-186 | cluster `c` gets Cloud Build in the GCP project and an artifact for `p` exactly when the story flags `p` and `c` lists it, once each and for no project `c` does not list; its globs are kept and sorted |
| Skaffold.ClusterDocRemoteRefs | skaffold/config.go:174-184 | cluster `c`'s references are its earlier ones plus exactly the target references of the projects `c` lists whose story flag is true, and none from other projects |
| Beam.MasterTagTemplate | main.go:55 | computes master's tag template `{{.IMAGE_NAME}}:master-{{.DIGEST}}` |
| Beam.StoryTagTemplate | main.go:58 | computes a story's tag template `{{.IMAGE_NAME}}:<name>-{{.USER}}-{{.DIGEST}}` |
| Beam.StoryTagTemplateInjective | main.go:58 | different story names give different tag templates |
| Beam.StoryTagNotMaster | main.go:55-58 | no story's tag template equals master's |
| Beam.InfraConfig | main.go:46-53 | computes the infra document: kind "Config", no build, and one kubectl glob `<manifests>/infra/*.yaml` |
| Beam.InfraGlobShared | main.go:46 | the infra glob is among a list's project globs exactly when a project is called "infra" |
| Beam.BaseDocument | main.go:115-128 | computes the document `baseSkaffoldConfig` returns: kind "Config", an envTemplate tag policy with the given template, Cloud Build in the given project, and empty lists |
| Beam.BaseSkaffoldConfig | main.go:115-128 | a new config of kind "Config", with tag template `t`, Cloud Build project `g`, and no artifacts, manifests or remote manifests |
| Beam.Enriched | main.go:86-111 | computes a document after enrichment with a list of projects: one artifact and one glob per project appended, in list order |
| Beam.EnrichedSnoc | main.go:86-97 | one more project appends its artifact and its glob |
| Beam.EnrichOne | main.go:86-111 | one iteration: master gains the project's artifact and glob; the story gains them exactly when the flag is true |
| Beam.EnrichSkaffoldConfigs | main.go:85-113 | master gains an artifact and a glob for every key in range order, the story for the deployable keys; nothing else changes and nothing is sorted |
| Beam.MasterGrowth | main.go:86-97 | master's artifact and glob lists each grow by exactly the number of keys |
| Beam.StoryArtifactsSubsequence | main.go:86-104 | the artifacts the story gains are a subsequence of those master gains |
| Beam.StoryGlobsSubsequence | main.go:93-110 | the globs the story gains are a subsequence of those master gains |
| Beam.EnrichedContents | main.go:86-111 | as multisets, master gains one artifact and one glob per key and the story one per flagged key, and nothing else |
| Beam.EnrichedBase | main.go:115-128 | the base document's lists, once enriched, are exactly those added |
| Beam.Action | main.go:46-63 | the infra, master and story documents handed to `writeConfig` |
| Beam.ActionDocuments | main.go:46-63 | master and story both use Cloud Build in the GCP project, under different tag templates, with no remote manifests. Master lists every project once, the story every deployable project once, as a subsequence of master's. Infra builds nothing and deploys one glob, which master shares only if a project is called "infra" |

## Left out

- YAML serialisation and file writes of the finished documents
  (`WriteConfigs`, `writeConfig`): the model stops at the documents handed to
  them. It does not model the order of the three writes in the action, or the
  stop at the first failed write.
- The internals of `text/template`: parse and execute together are the
  `Renderer` function parameter, which returns either bytes or an error.
- The tag calculation `calculateStoryTag` and its call sites: all commented
  out, so they have no behaviour.
- The command line (`cli/app.go`, `cli/command.go`), `config/map.go`, and the
  global fs and story loaders of `main.go`: flag wiring and I/O. The
  `skaffold-<c>.yaml` keys that `cli/command.go` sets up become a
  precondition of `RemoteManifestsWithInventory`.
- File modes and directory permissions: a refused path is the `readOnly` set,
  not a mode.
- Storage.MkdirAllOf: creates only the directory named: missing ancestors
  are not created, and the new directory is not added to its parent's
  listing.
- Go strings are bytes; the model's strings are `seq<char>`. A name that is
  not valid UTF-8 cannot be written, and `Strings.Le` agrees with Go's byte
  order only on valid UTF-8.
- nil versus empty slices and pointers: a nil list is an empty `seq`, and an
  absent tag policy or build type is `None`.
- The `fs` parameter of `RemoteManifests`: it is never used.
- Skaffold.LocalManifests, Skaffold.RemoteManifestsWithInventory and
  Beam.EnrichSkaffoldConfigs: they require the documents they fill to be
  distinct objects. Aliased configs, which the callers never pass, are not
  modelled.
- Skaffold.RemoteManifestsWithInventory: its `modifies` frame is every
  config in `ClusterConfigs`. Its `ensures` says what happens to the listed
  clusters' documents, not that the other values stay unchanged. A missing
  `skaffold-<c>.yaml` key, which panics in Go, is excluded by the
  precondition.
- Skaffold.ProjectRefs: also checks that the project is in the cluster
  listing. Go reaches it only for listed projects, and the check makes
  `ClusterRefs` total.
- The `fmt.Printf` warning for a missing template directory is modelled as
  an entry appended to a warning list, not as output.
