# elastic-package stack orchestration and version marker, in Dafny

This project models two parts of elastic-package.

The first is the stack orchestration layer in `internal/stack/compose.go`:

- **The service selector.** It turns the services a user asks for into the composition units passed to docker compose.
  - Dependency escalation: a selection that contains `elastic-agent` anywhere becomes the empty selection, which the engine reads as "all services".
  - Readiness expansion: each selected service is followed by its `<service>_is_ready` sidecar. The empty selection is left as it is.
- **The five lifecycle entry points** (build, pull, up, down, logs). Each one:
  1. resolves the stack directory;
  2. creates the compose project;
  3. reads the application configuration (pull and up only);
  4. builds the command options;
  5. invokes the engine.

  The first failure stops the call, and the entry point returns that error wrapped with a fixed context string.

The second part is the version marker in `internal/install/version_file.go`. It is a file holding `<commit hash>-<build time>`. It is written on installation. Later it is compared as a whole with the marker of the running build.

Files:

- `errors.dfy` (module `Errors`):
  - `Option` and `Result`;
  - the error chain built by `errors.Wrap`;
  - the `os.IsExist` / `os.IsNotExist` classification.
- `services.dfy` (module `Services`): the selector.
  - The reference definitions are `Escalated`, `Expanded` and `SelectUnits`, with lemmas about them.
  - `withDependentServices` and `withIsReadyServices` are written as the loop methods they are in the source, and proved equal to the reference definitions.
- `compose.dfy` (module `Compose`): the lifecycle entry points as methods.
  - The compose engine is a recording fake (class `Engine`). It answers each operation with a configured failure or success.
  - A `Host` value gives the answers of the other collaborators: the location manager, `compose.NewProject` and `install.Configuration`.
- `version_file.dfy` (module `VersionFile`): the marker.
  - The file system is a fake (class `FileSystem`): a map from path to content, plus per-path read and write failures.

The following are parameters or opaque values:

- The values of `DockerComposeProjectName` and `versionFilename` are declared in files that are not part of this model. They are module constants whose value is left open.
- `version.CommitHash` and `version.BuildTime` are parameters.
- The environment that `StackImageRefs(version).AsEnv()` builds is an opaque function inside `AppConfig`.

## Model

| member | source | states |
|---|---|---|
| `Services.WithDependentServices` | internal/stack/compose.go:140-147 | `elastic-agent` at any position gives `[]`; without it the input comes back unchanged, the empty input included; the result equals `Escalated` |
| `Services.WithIsReadyServices` | internal/stack/compose.go:149-159 | the result has length 2N; index 2k holds input k and index 2k+1 holds its `_is_ready` sidecar; empty input gives empty output; the result equals `Expanded` |
| `Services.SidecarOf` | internal/stack/compose.go:156 | the sidecar name is the service name followed by exactly `_is_ready` |
| `Services.EscalatedIdempotent` | internal/stack/compose.go:140-147 | escalation never leaves `elastic-agent` in its result, so escalating twice gives the same selection as escalating once |
| `Services.ExpandedShape` | internal/stack/compose.go:154-158 | the reference expansion has length 2N, with service k at 2k and its sidecar at 2k+1 |
| `Services.ExpandedAppend` | internal/stack/compose.go:155-157 | expansion distributes over concatenation, so appending one service appends its pair |
| `Services.ExpandedMembers` | internal/stack/compose.go:149-159 | a unit is in the expansion iff it is a selected service or the sidecar of one |
| `Services.SelectAllIff` | internal/stack/compose.go:31-33 | the units passed by Build, Pull and Up are empty ("all") iff the selection is empty or contains `elastic-agent`; otherwise they are the selection with each sidecar right after its service |
| `Services.SelectAllStable` | internal/stack/compose.go:150-152 | re-applying the selector to an "all" result gives "all" again |
| `Services.SelectExamples` | internal/stack/compose.go:140-159 | `["output-a"]` gives `["output-a", "output-a_is_ready"]`; `["elastic-agent", "output-a"]` gives `[]`; `[]` gives `[]` |
| `Compose.OpenProject` | internal/stack/compose.go:21-29 | a location failure is wrapped with "locating stack directory failed"; otherwise a project failure is wrapped with "could not create docker compose project"; otherwise the project is the snapshot definition file in the stack directory |
| `Compose.ReadConfiguration` | internal/stack/compose.go:52-55 | a configuration failure is wrapped with "can't read application configuration"; otherwise the configuration is returned |
| `Compose.DockerComposeBuild` | internal/stack/compose.go:20-39 | a setup failure is returned and the engine is not invoked; otherwise exactly one Build call is recorded with no env, no extra args and `SelectUnits(services)`; an engine failure is wrapped with "running command failed"; with `elastic-agent` selected the engine sees `[]` |
| `Compose.DockerComposePull` | internal/stack/compose.go:41-66 | location, project and configuration failures are returned in that order, and the engine is not invoked; otherwise one Pull call is recorded with the image-reference env of the stack version, no extra args and `SelectUnits(services)`; an engine failure is wrapped |
| `Compose.DockerComposeUp` | internal/stack/compose.go:68-99 | like Pull, with one Up call whose extra args are exactly `["-d"]` when daemon mode is on and `[]` otherwise |
| `Compose.DockerComposeDown` | internal/stack/compose.go:101-116 | a setup failure is returned and the engine is not invoked; otherwise one Down call is recorded with empty options; an engine failure is wrapped |
| `Compose.DockerComposeLogs` | internal/stack/compose.go:118-138 | a setup failure is returned and the engine is not invoked; otherwise one Logs call is recorded with services exactly `[serviceName]`; on success the engine's output is returned; on any failure the output is empty |
| `VersionFile.BuildVersionFile` | internal/install/version_file.go:42-44 | the marker is one character longer than hash and build time together: the commit hash, then `-` right after it, then the build time |
| `VersionFile.BuildVersionFileExample` | internal/install/version_file.go:42-44 | hash `abc123` and time `2024-01-01T00:00:00Z` give exactly `abc123-2024-01-01T00:00:00Z` |
| `VersionFile.BuildVersionFileInjective` | internal/install/version_file.go:42-44 | for commit hashes of equal length, two markers are equal iff both hashes and both build times are equal |
| `VersionFile.CheckIfLatestVersionInstalled` | internal/install/version_file.go:19-29 | as written: an `os.IsExist` read error gives `(false, nil)`; any other read error, a missing file included, gives `false` and the error wrapped with "reading version file failed"; a successful read gives no error and `true` iff the whole content equals the marker of this build |
| `VersionFile.CheckIfLatestVersionInstalledIntended` | internal/install/version_file.go:19-29 | the same check, with absence recognised: a missing file gives `(false, nil)`; only a fault other than absence is an error |
| `VersionFile.MissingMarkerAsWritten` | internal/install/version_file.go:20-26 | on an empty file system the as-written check returns `false` with the wrapped not-found error |
| `VersionFile.MissingMarkerIntended` | internal/install/version_file.go:21-22 | on an empty file system the intended check returns `(false, nil)` |
| `VersionFile.WriteVersionFile` | internal/install/version_file.go:31-40 | if the write fails, the error is wrapped with "writing static resource failed" and the files are unchanged; otherwise it returns nil and the only change is the marker stored at `rootDir/versionFilename` |
| `VersionFile.WriteThenCheck` | internal/install/version_file.go:19-40 | after a successful write, a check of the same directory and build returns `(true, nil)` unless reading that path fails; the write succeeds iff no write fault is configured |
| `VersionFile.WriteThenCheckOtherBuild` | internal/install/version_file.go:27-28 | after a successful write, a check with any build returns no error and "latest" iff that build's marker equals the written one, unless reading that path fails; a different build whose commit hash has the same length reads as not latest |

## Left out

- `cmd/lint.go` (the lint command) is not modelled. It is CLI plumbing: a directory listing, then a fail-fast loop over `docs.IsReadmeUpToDate` and the external package-spec validator, none of whose behaviour is part of this model.
- The compose engine (`internal/compose`) is not modelled. It runs external processes. The recording fake `Compose.Engine` stands in for it.
- `locations.NewLocationManager`, `compose.NewProject` and `install.Configuration` are answers supplied by `Compose.Host`. What they check and read is not part of this model.
- `StackImageRefs(...).AsEnv()` is an opaque function in `Compose.AppConfig`. Which variables it sets is not modelled.
- `filepath.Join` is not modelled. A path is the pair `(directory, name)` it is built from, so two different pairs are two different files.
- `writeStaticResource` is not part of this model. It is modelled as one map update that fails with the error configured for the path. Its leading error parameter is always nil at this call site, so it is dropped.
- Wrapping is modelled as a list of context strings on top of a cause. The message text that `errors.Wrap` formats is not modelled.
- The nil versus empty-slice distinction is not modelled. A nil `[]string` or `[]byte` is the empty sequence.
- Concurrency, cancellation and the engine's own partial-start state are not modelled. Every call here is sequential and synchronous.
- The empty selection stays the "all services" value, as in the code. There is no separate tagged `All` variant.
- `Compose.DockerComposePull`: a Pull fails on image references only when the application configuration cannot be read. There is no separate failure for a stack version without image references. The code has no such check, so none is modelled.
- `VersionFile.CheckIfLatestVersionInstalled`: follows the code. The comment at internal/install/version_file.go:22 ("old version, no version file") says a missing marker means an old installation, but the `os.IsExist` test makes a missing file an error (see Findings).

## Findings

| source | as written | input that shows it | evidently intended | confidence | as-written member | corrected member |
|---|---|---|---|---|---|---|
| internal/install/version_file.go:21 | `os.IsExist(err)` guards the return commented "old version, no version file", so a missing marker file falls through to the wrapped "reading version file failed" error | an installation directory with no marker file | `os.IsNotExist(err)`: a missing marker means "not the latest" and no error | high; not executed | `VersionFile.MissingMarkerAsWritten` | `VersionFile.CheckIfLatestVersionInstalledIntended` |
