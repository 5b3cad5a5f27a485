# Scaffold pipeline of the Vue project creator, modelled in Dafny

This project models the core of a desktop tool that scaffolds Vue projects. The tool is a Tauri back end written in Rust. It does not generate code itself. It runs `pnpm dlx` with an upstream generator, installs the dependencies, and adds the packages of the requested "features" (router, pinia, sass, …), which it looks up in a component registry kept in `components.json`. It then patches the generated entry file and writes a few asset files. It does all of this in one of two modes:

- `create_project` blocks and returns a `Result`.
- `create_project_async` runs in the background and streams `project:create_log` lines, then one `project:create_done` event.

The same registry code also seeds and saves `components.json`, and asks npm which versions of a package exist.

Modules, one per component of the source:

- `Wrappers`: `Option`, `Result` and `Unit`.
- `Text`: Rust's `str::contains`, `str::replace` and `str::trim` as functions. The lemmas say what a replacement can create or destroy, and the patcher's proofs rest on them.
- `Registry`: `components.json` as a typed document, the six-entry default, the `RegistryStore` class with `Read`/`Save`, and `fetch_npm_versions`. `NewestFirst` reverses and truncates the version list in place on an array.
- `TargetDir`: `check_target_dir` and the same guard repeated inside both pipelines. The directory is one of `Absent`, `Empty`, `NonEmpty` or `Unreadable`.
- `Features`: the first-match lookup by key, the support matrix (a missing flag counts as supported), package specifications (`name` or `name@version`), the first pass over the requested keys and the second pass for custom keys.
- `Generator`: the generator command lines of the two modes, kept apart. For `vue3` the blocking mode runs `create-vue` with flags and the streaming mode runs `create-vite` with a template.
- `Patcher`: the entry-file import step, the `createPinia` rewrite that only the blocking mode applies, and the write-if-absent assets. All of these work over a map from paths to contents.
- `Pipeline`: both pipelines, in two forms.
  - Functions (`Blocking`, `Streaming`) give the result, the spawned processes, the events and the files as a function of an abstract world `Env`. The world holds the tool lookup, the directory state, the registry files, an oracle `outcome(i)` for the exit of the i-th spawned process, and the files the generator writes.
  - The `Workspace` class runs the pipelines step by step over `files`, `procs` and `events`. Each of its methods is proved equal to the function.

A few behaviours of the code are worth knowing, and the model follows the code in each:

- The blocking mode never looks at the exit status of the base `pnpm install` (`project.rs:158`). Only a failure to spawn it aborts.
- In both modes a failed `pnpm add` ends the whole `add` call for that feature, so that feature's remaining packages are not tried. The streaming mode then moves on to the next feature (`project.rs:523`); it does not retry package by package.
- A custom key (one outside the built-in list) whose entry has only `package` is added twice by the blocking mode. The first pass adds it pinned to its version, and the second pass adds the bare name (`Features.CustomKeyAddedTwice`).
- When the config directory cannot be resolved, the streaming mode reads `components.json` from the working directory (`project.rs:499`). The blocking mode fails instead (`project.rs:178`).

## Model

| member | source | states |
|---|---|---|
| TargetDir.CheckTargetDir | src-tauri/src/commands/project.rs:6-32 | Ok exactly when `<directory>/<name>` is absent or a readable empty directory; otherwise Err, and the message contains the name and the joined path |
| TargetDir.Guard | src-tauri/src/commands/project.rs:102-122 | the guard inside the pipelines is Ok exactly when the directory is absent or empty |
| TargetDir.GuardMentions | src-tauri/src/commands/project.rs:102-122 | a refusal names the folder, the joined path and the caller's closing words; a non-empty directory is refused as "not empty", an unreadable one as "already exists" |
| TargetDir.PipelineGuardAgrees | src-tauri/src/commands/project.rs:415-434 | the pipelines refuse exactly the directories `check_target_dir` refuses, with their own closing words |
| TargetDir.Join | src-tauri/src/commands/project.rs:99-101 | the project directory is the base directory, one `/`, then the name; each part is recovered by slicing at the base's length |
| Registry.StringElements | src-tauri/src/commands/registry.rs:132 | the kept names are string elements of the JSON array, no more of them than elements |
| Registry.StringElementsAllStrings | src-tauri/src/commands/registry.rs:132 | an array made only of strings keeps all of them, in order |
| Registry.StringElementsAppend | src-tauri/src/commands/registry.rs:132 | keeping the string elements distributes over concatenation |
| Registry.StringElementsSkip | src-tauri/src/commands/registry.rs:132 | a non-string element contributes nothing wherever it stands |
| Registry.DefaultComponents | src-tauri/src/commands/registry.rs:14-65 | the default registry has six entries, each with a key and a package list |
| Registry.DefaultDocument | src-tauri/src/commands/registry.rs:14-71 | the document seeded when no registry file exists holds the six default components, each with a key and a package list |
| Registry.JobComponents | src-tauri/src/commands/project.rs:177-184 | a job sees the stored components; a missing or unparsable registry file reads as no components |
| Registry.RegistryStore.Read | src-tauri/src/commands/registry.rs:10-73 | without a config directory: error, file untouched; file absent: the default document is written and returned, or, when the write fails, the file system's error is returned and the file stays absent; file stored: its content returned unchanged; unreadable: error |
| Registry.RegistryStore.Save | src-tauri/src/commands/registry.rs:76-81 | without a config directory: error, no change; when creating the directory or writing fails: the file system's error, no change; otherwise Ok and the file becomes exactly the payload |
| Registry.SaveThenRead | src-tauri/src/commands/registry.rs:76-81 | after a successful save, reading returns that payload; after a failed save, the file is as before and a stored document is still read back |
| Registry.ReadTwice | src-tauri/src/commands/registry.rs:12-72 | a second read always returns what the first did; when writes succeed and the file is readable, the first read is Ok and the file then holds its document, the default exactly for a previously missing file; when writes fail, the file is unchanged |
| Registry.QueryArgs | src-tauri/src/commands/registry.rs:113-114 | the query is exactly the four arguments `view`, the package, `versions`, `--json` |
| Registry.NewestFirst | src-tauri/src/commands/registry.rs:136-137 | the list is reversed (last element first) and cut to at most 100 entries |
| Registry.FetchNpmVersions | src-tauri/src/commands/registry.rs:85-139 | tool missing, timeout, join failure, spawn failure, non-zero exit (trimmed stderr) and invalid UTF-8 are errors, checked in that order; otherwise Ok with at most 100 versions: the string elements of the array newest first, or the empty list when the output is not an array |
| Features.FindByKey | src-tauri/src/commands/project.rs:186 | a found index is in range and its entry carries the key |
| Features.FindByKeyFirst | src-tauri/src/commands/project.rs:186 | the found entry is the first with the key, every earlier entry having another key; None exactly when no entry has it |
| Features.Supported | src-tauri/src/commands/project.rs:187-191 | an entry is excluded exactly when its matrix says `false` for the chosen Vue version or for the chosen language; a missing matrix or flag counts as supported |
| Features.ResolvePackages | src-tauri/src/commands/project.rs:192-204 | the `pkgs` loop yields the package specifications of the entry under the chosen version |
| Features.PackagesTakePrecedence | src-tauri/src/commands/project.rs:193-204 | when `packages` is an array, `package` has no influence on the specifications |
| Features.NonStringsSkipped | src-tauri/src/commands/project.rs:194-195 | a non-string element of `packages` is dropped without disturbing the others |
| Features.SpecsShape | src-tauri/src/commands/project.rs:196-198 | one specification per package, in order; every one is `name@pin` when the entry pins the chosen version, the bare name otherwise |
| Features.JobFor | src-tauri/src/commands/project.rs:205-208 | a job is only produced with at least one package |
| Features.FirstMatchWins | src-tauri/src/commands/project.rs:186-207 | the first entry with the key alone decides: a job exists iff it is supported and yields packages, `dev` is true only when set to true |
| Features.UnknownKeyNoJob | src-tauri/src/commands/project.rs:186 | a key no entry carries installs nothing |
| Features.Plan | src-tauri/src/commands/project.rs:185-210 | at most one job per requested key |
| Features.JobsFor | src-tauri/src/commands/project.rs:186-208 | zero or one job per key: exactly the key's job when it has one |
| Features.PlanJobsNonEmpty | src-tauri/src/commands/project.rs:205-208 | every first-pass job adds at least one package |
| Features.PlanAppend | src-tauri/src/commands/project.rs:185 | requested keys are handled independently and in request order |
| Features.PlanOfUnknownKeys | src-tauri/src/commands/project.rs:185-210 | a request made only of keys missing from the registry runs no `pnpm add` |
| Features.CustomJob | src-tauri/src/commands/project.rs:228-241 | a second-pass job only for a key outside the built-in list, with exactly one non-empty package |
| Features.CustomPlan | src-tauri/src/commands/project.rs:224-244 | at most one job per requested key |
| Features.CustomPlanSingles | src-tauri/src/commands/project.rs:229-240 | every second-pass job adds exactly one package |
| Features.CustomPlanOfKnownKeys | src-tauri/src/commands/project.rs:226-228 | built-in keys alone make the second pass do nothing |
| Features.CustomKeyAddedTwice | src-tauri/src/commands/project.rs:185-242 | a custom key with only `package` is added pinned by the first pass and unpinned by the second |
| Features.AddArgs | src-tauri/src/commands/project.rs:165-169 | `add`, then `-D` exactly for development dependencies, then the package |
| Features.DefaultRegistryKeys | src-tauri/src/commands/registry.rs:16-62 | the default keys are `router`, `pinia`, `sass`, `naive-ui`, `vfonts`, `xicons`, without repetition, equal to the built-in key list |
| Features.DefaultNaiveUiSupport | src-tauri/src/commands/registry.rs:43-49 | default `naive-ui` is installed exactly for Vue 3 with TypeScript |
| Features.DefaultPiniaJobs | src-tauri/src/commands/registry.rs:25-33 | default `pinia` installs both packages pinned `^2.3.1` for Vue 3 and unpinned for Vue 2 |
| Features.DefaultSassJob | src-tauri/src/commands/registry.rs:34-42 | default `sass` installs `sass` and `sass-loader` pinned `^1.94.0` as development dependencies |
| Generator.BlockingArgs | src-tauri/src/commands/project.rs:126-148 | an error, "unknown version", exactly for versions other than `vue2` and `vue3`; `CI=true` exactly for `vue3` |
| Generator.BlockingArgsShape | src-tauri/src/commands/project.rs:126-148 | `vue3`: `dlx create-vue@latest <name>`, then exactly the option flags (`--ts` iff TypeScript, `--router`/`--pinia` iff requested), `--packageManager pnpm` last; `vue2`: Vue CLI 5 with the inline preset and no `CI` |
| Generator.StreamingArgs | src-tauri/src/commands/project.rs:440-455 | `vue3`: `create-vite -- --template vue-ts` for TypeScript, `vue` otherwise, no `CI`; `vue2` as in the blocking mode; anything else "unknown version" |
| Generator.ModesAgreeOnVue2 | src-tauri/src/commands/project.rs:447-450 | both modes run the same Vue 2 command |
| Generator.ModesDifferOnVue3 | src-tauri/src/commands/project.rs:441-446 | for Vue 3 the two modes run different generators and only the blocking one sets `CI` |
| Patcher.CandidateLines | src-tauri/src/commands/project.rs:252-257 | the sass line iff `sass`, both font lines iff `vfonts`, the plugin import iff `pinia` and the file does not mention the plugin package; nothing else |
| Patcher.Header | src-tauri/src/commands/project.rs:259-262 | the header is empty exactly when every candidate line is already a substring of the file |
| Patcher.PrependImports | src-tauri/src/commands/project.rs:252-265 | the import step yields the missing candidate lines, in order, in front of the content |
| Patcher.BuildHeader | src-tauri/src/commands/project.rs:261-262 | the header loop yields each missing line followed by a newline |
| Patcher.PrependUnchanged | src-tauri/src/commands/project.rs:259-260 | a file holding every candidate line is left unchanged |
| Patcher.PrependComplete | src-tauri/src/commands/project.rs:252-265 | afterwards every candidate line is present and the old content is kept |
| Patcher.PrependMentionsPlugin | src-tauri/src/commands/project.rs:255-256 | with `pinia` requested the result mentions the plugin package |
| Patcher.PrependIdempotent | src-tauri/src/commands/project.rs:252-265 | a second import step is a no-op |
| Patcher.PrependKeeps | src-tauri/src/commands/project.rs:252-265 | the import step keeps every text the content already mentions |
| Patcher.NothingMissing | src-tauri/src/commands/project.rs:259-260 | a file holding the required lines and mentioning the plugin is left unchanged by the import step |
| Patcher.PiniaRewriteEffect | src-tauri/src/commands/project.rs:268-289 | on `app.use(createPinia())` or the looser shape the result registers `pinia.use(persisted)` and no longer holds `app.use(createPinia())`; any other content is returned unchanged |
| Patcher.PiniaRewrite | src-tauri/src/commands/project.rs:268-289 | content that already registers `pinia.use(persisted)` and has no `app.use(createPinia())`, or that has no `createPinia()` call at all, is returned unchanged |
| Patcher.PiniaRewriteIdempotent | src-tauri/src/commands/project.rs:268-289 | applying the rewrite to its own output changes nothing |
| Patcher.PiniaRewriteKeeps | src-tauri/src/commands/project.rs:269-282 | the rewrite keeps every import line and the plugin package mention |
| Patcher.EntryPatch | src-tauri/src/commands/project.rs:250-289 | outside the blocking mode, for Vue 2, or without `pinia`, the entry file only gains its missing import lines: the pinia rewrite is reserved to blocking Vue 3 jobs with `pinia` |
| Patcher.EntryPatchIdempotent | src-tauri/src/commands/project.rs:250-289 | the whole entry-file patch, with or without the pinia rewrite, is a no-op on its own output |
| Patcher.StreamingPatchIsPrepend | src-tauri/src/commands/project.rs:532-548 | in the streaming mode the patch is the import step alone |
| Patcher.EntryPath | src-tauri/src/commands/project.rs:247-250 | `main.ts` when it exists, else `main.js` when it exists, else nothing |
| Patcher.WriteIfAbsent | src-tauri/src/commands/project.rs:296-303 | an existing file is never overwritten; an absent one gets the content |
| Patcher.PatchEntry | src-tauri/src/commands/project.rs:246-290 | the entry-file step creates and removes no file, gives the entry file its patched text and leaves every other file as it was |
| Patcher.WriteAssets | src-tauri/src/commands/project.rs:293-331 | existing files keep their content; the stylesheet exists afterwards when `sass` is requested, the store for Vue 3 with `pinia`; no other file is created |
| Patcher.PatchedFiles | src-tauri/src/commands/project.rs:246-331 | after the patch phase the entry file holds its patched text: writing the assets never overwrites it |
| Patcher.PatchFrame | src-tauri/src/commands/project.rs:247-331 | the patch phase removes no file, changes only the entry file, and creates only the stylesheet and the store |
| Patcher.PatchIdempotent | src-tauri/src/commands/project.rs:247-331 | running the whole patch phase on its own output changes nothing |
| Patcher.PathsDistinct | src-tauri/src/commands/project.rs:247-331 | `main.ts`, `main.js`, the stylesheet and the store are four distinct paths |
| Patcher.WriteAssetsTwice | src-tauri/src/commands/project.rs:296-331 | writing the assets a second time changes nothing |
| Patcher.WriteAssetsKeepEntry | src-tauri/src/commands/project.rs:296-331 | writing the assets leaves the entry file where it was, with the same content |
| Patcher.SassScenario | src-tauri/src/commands/project.rs:253-303 | Vue 3 + TypeScript + `sass`: the entry file gains exactly the stylesheet import, the stylesheet is created, no store appears |
| Patcher.PiniaScenario | src-tauri/src/commands/project.rs:267-289 | blocking Vue 3 + `pinia` on `app.use(createPinia())`: plugin registered, original call gone, import present, second run a no-op |
| Text.ContainsIff | src-tauri/src/commands/project.rs:259 | `contains` holds exactly when the substring occurs |
| Text.TrimIsMiddle | src-tauri/src/commands/registry.rs:127 | `trim` keeps a contiguous middle part with whitespace removed at both ends |
| Text.TrimEmptyIff | src-tauri/src/commands/project.rs:462-465 | the trimmed text is empty exactly when the text is whitespace only |
| Text.TrimIdempotent | src-tauri/src/commands/registry.rs:127 | trimming a trimmed text changes nothing |
| Pipeline.AddOne | src-tauri/src/commands/project.rs:165-171 | one `pnpm add` process; Ok iff it succeeds, else the spawn error or "failed to add dependency: <p>" |
| Pipeline.AddTrace | src-tauri/src/commands/project.rs:162-174 | Ok iff every process of the call succeeds, then one process per package; on failure at least one and at most all |
| Pipeline.AddTraceRuns | src-tauri/src/commands/project.rs:164-172 | the processes follow package order; with logging every success is reported in order, a failure is not |
| Pipeline.AddTraceFailure | src-tauri/src/commands/project.rs:170-171 | a failed call stopped at its first failed process, all earlier ones having succeeded, with that package's error |
| Pipeline.AddTraceAllOk | src-tauri/src/commands/project.rs:164-173 | when all processes succeed every package is run and reported, in order |
| Pipeline.AddTraceStopsAt | src-tauri/src/commands/project.rs:164-172 | a failure at package i runs exactly packages 0..i and returns that package's error |
| Pipeline.QuietAdd | src-tauri/src/commands/project.rs:162-174 | the blocking `add` call reports nothing |
| Pipeline.AddTraceLogs | src-tauri/src/commands/project.rs:483-496 | the streaming `add` call emits only log lines |
| Pipeline.PassTrace | src-tauri/src/commands/project.rs:224-242 | a pass that does not stop on errors always succeeds |
| Pipeline.QuietPass | src-tauri/src/commands/project.rs:185-242 | the blocking passes report nothing |
| Pipeline.PassLogsAreLines | src-tauri/src/commands/project.rs:505-524 | a pass emits only log lines, never a `done` event |
| Pipeline.PassRunsOnlyAdds | src-tauri/src/commands/project.rs:165-169 | every process of a pass is a `pnpm add` in the project directory without `CI` |
| Pipeline.EveryJobTried | src-tauri/src/commands/project.rs:523 | a non-stopping pass tries every job, failed ones included |
| Pipeline.EveryJobStarted | src-tauri/src/commands/project.rs:505-524 | a non-stopping pass spawns the `add` of every job's first package, whatever became of the jobs before it |
| Pipeline.StoppingPassOk | src-tauri/src/commands/project.rs:205-208 | a stopping pass succeeds iff every one of its processes succeeds, and then runs exactly one process per package in order |
| Pipeline.StoppingOkAllSucceed | src-tauri/src/commands/project.rs:205-208 | a successful stopping pass saw every one of its processes succeed |
| Pipeline.AllAddsOk | src-tauri/src/commands/project.rs:185-210 | when every `add` process succeeds, a pass of either kind succeeds |
| Pipeline.AllAddsProcs | src-tauri/src/commands/project.rs:185-210 | when every `add` process succeeds, a pass runs exactly one process per package of its plan, in order |
| Pipeline.AllAddsRun | src-tauri/src/commands/project.rs:185-210 | when every `add` succeeds, either kind of pass runs every package in order |
| Pipeline.StoppingPassFailure | src-tauri/src/commands/project.rs:207 | a failed stopping pass ends with its failed process and that package's error |
| Pipeline.PassesOkIff | src-tauri/src/commands/project.rs:185-244 | the two blocking passes succeed exactly when every first-pass `add` does, and the project is patched exactly then |
| Pipeline.PassesSuccess | src-tauri/src/commands/project.rs:185-210 | successful passes begin with every first-pass package, in order |
| Pipeline.PassesFailure | src-tauri/src/commands/project.rs:205-208 | failed passes end with the failed first-pass `add`, every earlier process having succeeded, with that package's error |
| Pipeline.PassesSpawnAdds | src-tauri/src/commands/project.rs:161-174 | every process of the two passes is a `pnpm add` in the project directory without `CI` |
| Pipeline.BlockingReachesPasses | src-tauri/src/commands/project.rs:125-210 | once the generator succeeded, the install was spawned and the config directory resolved, the run is the generator, the install, then the two passes |
| Pipeline.Blocking | src-tauri/src/commands/project.rs:35-334 | a run that spawned nothing failed and left the files untouched |
| Pipeline.BlockingFrom | src-tauri/src/commands/project.rs:125-244 | the generator is the first process; the files stay untouched only when the generator alone ran and the run failed |
| Pipeline.Installed | src-tauri/src/commands/project.rs:155-244 | the base install is the first process after the generator; from there on the generated files are always in place |
| Pipeline.BlockingPasses | src-tauri/src/commands/project.rs:176-244 | the passes leave the project at least scaffolded, and patched exactly when the result is Ok |
| Pipeline.BlockingChecksFirst | src-tauri/src/commands/project.rs:86-148 | nothing is spawned iff the tool, directory or version check fails; "pnpm not found", the directory refusal naming folder and path, and "unknown version" in that order |
| Pipeline.BlockingOkIff | src-tauri/src/commands/project.rs:35-334 | Ok iff checks pass, the generator succeeds, the install can be spawned, the config directory resolves and every first-pass `add` succeeds; the project is patched exactly then |
| Pipeline.BlockingProcesses | src-tauri/src/commands/project.rs:125-174 | the generator runs in the base directory (`CI` iff Vue 3), the install in the project directory, then only `pnpm add`s |
| Pipeline.BlockingSuccess | src-tauri/src/commands/project.rs:125-210 | a successful run spawned the generator, the install and then every first-pass package, in order |
| Pipeline.BlockingAddFailure | src-tauri/src/commands/project.rs:170-207 | a run that fails after the install and the config directory failed on a first-pass `add`: it ends with that process, every earlier `add` succeeded, and the error is that package's |
| Pipeline.StreamingOneDone | src-tauri/src/commands/project.rs:369-592 | the streaming job emits log lines and then exactly one `done` event, last |
| Pipeline.StreamingOkIff | src-tauri/src/commands/project.rs:393-474 | `done{success:true}` iff the checks pass and the generator succeeds; every other ending is `done{success:false}` with an error and no files written |
| Pipeline.StreamingFromOkIff | src-tauri/src/commands/project.rs:457-474 | after the checks, the job ends with `done{success:true}` exactly when the generator succeeds; otherwise with `done{success:false}` carrying an error, nothing written |
| Pipeline.StreamingEffects | src-tauri/src/commands/project.rs:476-588 | after a successful generator: install, at least one `add` per first-pass job, patched without the pinia rewrite, no custom-key pass |
| Pipeline.StreamingPassEffects | src-tauri/src/commands/project.rs:498-525 | the streaming first pass spawns only `pnpm add`s, at least one per job and the `add` of every job's first package among them, and exactly the plan's packages when all succeed |
| Pipeline.StreamingStartsEveryJob | src-tauri/src/commands/project.rs:476-525 | after a successful generator, the `add` of every first-pass job's first package is among the processes that follow the generator and the install |
| Pipeline.Streaming | src-tauri/src/commands/project.rs:369-592 | the job emits the four opening lines first and a `done` event last, and leaves the files untouched or patched, never half-way |
| Pipeline.StreamingFrom | src-tauri/src/commands/project.rs:436-592 | after the lines so far at least one more event, the last a `done`; the files untouched or patched |
| Pipeline.StreamingGenerated | src-tauri/src/commands/project.rs:457-592 | the generator is the first process; the lines so far are kept, a `done` event comes last, the files end untouched or patched |
| Pipeline.StreamingPass | src-tauri/src/commands/project.rs:476-591 | the lines and processes so far are kept, the job ends with `done{success:true}` and the project is patched |
| Pipeline.StreamingPlan | src-tauri/src/commands/project.rs:498-523 | at most one job per requested feature, none of them empty, from the config directory's registry or else the working directory's |
| Pipeline.IntroLines | src-tauri/src/commands/project.rs:371-374 | four log lines and no `done` event |
| Pipeline.OutputLines | src-tauri/src/commands/project.rs:461-465 | at most two log lines, none exactly when both trimmed outputs are empty |
| Pipeline.StreamingGeneratorOutput | src-tauri/src/commands/project.rs:457-468 | a failed generator's non-empty trimmed stdout then stderr are logged before the failure |
| Pipeline.ModesAgreeOnChecks | src-tauri/src/commands/project.rs:393-454 | both modes refuse the same requests before spawning, with the same message |
| Pipeline.Workspace.AddPackages | src-tauri/src/commands/project.rs:162-174 | the `add` loop leaves exactly the processes, lines and result of `AddTrace` |
| Pipeline.Workspace.Spawn | src-tauri/src/commands/project.rs:168-170 | spawning records the process after the earlier ones and returns the exit the world gives that process's number |
| Pipeline.Workspace.RunPass | src-tauri/src/commands/project.rs:185-210 | the registry pass leaves exactly the processes, lines and result of `PassTrace` |
| Pipeline.Workspace.PatchProject | src-tauri/src/commands/project.rs:246-331 | the files become `PatchedFiles` of the old files |
| Pipeline.Workspace.CreateProject | src-tauri/src/commands/project.rs:35-334 | result, processes and files are those of `Blocking`; no event is emitted |
| Pipeline.Workspace.Scaffold | src-tauri/src/commands/project.rs:150-244 | the steps after the checks match `BlockingFrom` |
| Pipeline.Workspace.Install | src-tauri/src/commands/project.rs:155-244 | the install, the config directory and the passes leave the result and processes of `Installed`; the files are patched exactly when it reaches the patch; no event |
| Pipeline.Workspace.RunPasses | src-tauri/src/commands/project.rs:185-242 | the stopping first pass, then, only if it succeeded, the second pass whose failures are dropped: the result and processes of `BlockingPasses`, patched stage exactly on success |
| Pipeline.Workspace.InstallFeatures | src-tauri/src/commands/project.rs:177-244 | both passes then the patch, matching `BlockingPasses` |
| Pipeline.Workspace.CreateProjectAsync | src-tauri/src/commands/project.rs:369-436 | events, processes and files are those of `Streaming` |
| Pipeline.Workspace.ScaffoldAsync | src-tauri/src/commands/project.rs:438-455 | the generator choice and what follows match `StreamingFrom` |
| Pipeline.Workspace.GenerateAsync | src-tauri/src/commands/project.rs:457-474 | the generator process and what follows match `StreamingGenerated` |
| Pipeline.Workspace.LogOutput | src-tauri/src/commands/project.rs:462-465 | logs the trimmed output and error, each only when not empty |
| Pipeline.Workspace.ReportFailedGenerator | src-tauri/src/commands/project.rs:460-468 | logs the generator's output, then reports `done{success:false}` with "project creation failed" |
| Pipeline.Workspace.FinishAsync | src-tauri/src/commands/project.rs:476-591 | the install, the logged pass, the patch and the final `done{success:true}` |

## Left out

- `resolve_pnpm` (probing `pnpm`, `pnpm.cmd`, `pnpm.exe`, then `where`) is process I/O. Its result is the input `Env.tool` or the `tool` parameter.
- `set_default` and the `config.json` write are not modelled. In the blocking mode a failure of that write would abort the job; the model never fails there.
- Creating the base directory (`create_dir_all`) is assumed to succeed.
- The blocking patch phase can abort when it fails to read or write a file, or to create a directory. The model treats every file operation of the patch phase as successful. In the streaming mode such failures are ignored by the source anyway.
- Process execution is an oracle: the i-th spawned process gets `outcome(i)`. A failed generator writes no file in the model; whatever partial output the real generator leaves is not captured.
- Event emission is appending to a sequence. Emission failures, which the source ignores, are not modelled. Running the job on a background thread (`spawn_blocking`) is not modelled either.
- The 8-second `tokio` timeout and the join of the worker are the input `QueryOutcome`.
- JSON parsing and serialisation are replaced by typed records. A registry file that cannot be read and one that does not parse are the same `Unreadable` state.
- Registry.RegistryStore.Read, Registry.RegistryStore.Save: a write that fails is modelled as leaving the file as it was. A real `fs::write` that fails after truncating the file, or after writing part of it, can leave a partial file, which the model does not capture. Whether a write fails is a fixed input of the store (`writeError`), not something that can change between calls.
- Messages are English renderings of the source's Chinese messages, and the config-directory and I/O errors are constant texts. Only "contains the name and the path" is promised about their wording.
- TargetDir.Join: `Path::join` is modelled as `base + "/" + name` for every input. A base that already ends in a separator, an empty base, an absolute name (which replaces the base in Rust) and the Windows separator `\` are not modelled, so the model's project directory can differ from the real one in those cases.
- Text.Trim: only ASCII whitespace is trimmed, not the full Unicode whitespace set that Rust's `trim` removes.
- Patcher.ScssAsset, Patcher.CounterTs, Patcher.CounterJs: the texts written to `src/styles/main.scss` (`src-tauri/src/commands/project.rs:298-300`) and to the counter store (`project.rs:313-327`) are short stand-in strings. The model states which text is written to which path, and only when the path is absent; it does not carry the texts' characters, because long literals make every proof that unfolds the patch phase too costly to verify.
- `String::from_utf8_lossy` on generator output is not modelled; the output is given as text.
- The blocking mode reads `components.json` twice (`project.rs:178` and `project.rs:217`). Nothing writes the file in between, so the model reads it once.
