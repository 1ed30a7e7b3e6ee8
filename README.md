# Task runner core: includes, taskfile loading, template helpers

This Dafny project models three parts of the `task` runner and proves properties about them.

- **Include descriptors** (`taskfile/included_taskfile.go`), in `IncludeDescriptor`.
  - A descriptor (`IncludedTaskfile`) has two YAML forms. The bare-string form gives only the included taskfile's path. The object form gives `taskfile`, `dir`, `optional`, `internal`, `aliases` and `vars`, and marks the include as an advanced import.
  - A descriptor can be deep-copied. The copy owns its own variable set.
  - Its taskfile path and directory are resolved to absolute paths. Relative paths are resolved against the directory of the taskfile that declared the include (`BaseDir`).
- **The include registry** (`IncludedTaskfiles`, same file), in `IncludeRegistry`.
  - It is an insertion-ordered map from namespace to descriptor. It has `Set`, `Merge`, `Range` and `Len`, and is decoded from a YAML mapping node.
  - It is a class over a key sequence and a possibly-nil map. Each method is proved against the value-level specification `Registry`, whose functions `Put`, `PutAll` and `MergeSpec` come with lemmas. Those lemmas give the resulting keys, key order, stored values and the registry invariant (`Consistent`: keys are distinct, and keys and map domain agree).
- **Taskfile loading** (`read_taskfile.go`), in `Loader`.
  - The `Executor` reads `Taskfile.{yml,json,toml}` (the first one that exists wins). It then reads the `Taskfile_<GOOS>` overlay. A missing overlay is tolerated. Overlay entries overwrite base entries of the same name.
  - Finally it reads `Taskvars.{yml,json,toml}` into the shared variables.
  - The file system is a map from path to bytes. The three decoders are a parameter (`Codecs`).
- **Template helpers** (`internal/templater/funcs.go`), in `Templater`.
  - `catLines`, `splitLines`, `exeExt` and `IsSH`.
  - The start-up function table, in which task functions (deprecated aliases included) override sprig functions of the same name.

Shared modules:
- `Wrappers` holds `Option` and `Result`.
- `Errors` holds the errors the core produces or passes on.

Differences between the design description and the code, where the model follows the code:
- **Bare-string decode.** It sets only the taskfile path of the descriptor being decoded into. It does not reset the other fields. The registry always decodes into a zero-valued descriptor, so there the two readings agree.
- **`BaseDir`.** The decode does not set it. A decoded descriptor keeps whatever `BaseDir` it had, which is `""` for the registry's zero value.
- **`DeepCopy`.** It copies every scalar field and the variable set, but not `Aliases`. The copy has no aliases.

## Model

| member | source | states |
|---|---|---|
| IncludeDescriptor.UnmarshalYAML | taskfile/included_taskfile.go:96-122 | succeeds iff the string form or the object form decodes; the error is the object form's; the string form changes only the taskfile path; the object form copies the six declared fields, keeps `BaseDir` and sets `advancedImport`; from a fresh descriptor, `advancedImport` holds iff the string form did not apply |
| IncludeDescriptor.CopyVars | taskfile/included_taskfile.go:136 | nil stays nil; otherwise a newly allocated variable set with the same keys and mapping |
| IncludeDescriptor.DeepCopy | taskfile/included_taskfile.go:124-139 | nil gives nil; otherwise the scalar fields and `BaseDir` are equal, the aliases are empty, and the variable set is nil iff the source's is, else fresh and equal |
| IncludeDescriptor.SetVarInCopy | taskfile/included_taskfile.go:124-139 | changing a variable in a deep copy leaves the original's variable set unchanged |
| IncludeDescriptor.ResolvePath | taskfile/included_taskfile.go:151-167 | an expansion error is returned unchanged; an absolute expansion is returned as is; a relative one is `Abs(SmartJoin(BaseDir, p))`; an `Abs` failure is wrapped with the path and `BaseDir`; if `Abs` gives absolute paths, every success is absolute |
| IncludeDescriptor.FullTaskfilePath | taskfile/included_taskfile.go:141-144 | the resolved taskfile path, absolute on success |
| IncludeDescriptor.FullDirPath | taskfile/included_taskfile.go:146-149 | the resolved working directory, absolute on success |
| IncludeDescriptor.BaseDirIgnoredForAbsolutePaths | taskfile/included_taskfile.go:157-159 | descriptors with different base directories resolve an absolute path alike |
| IncludeDescriptor.CopyResolvesAlike | taskfile/included_taskfile.go:130-149 | a descriptor with the same taskfile, directory and base directory (as a deep copy has) resolves both paths exactly as its source |
| IncludeRegistry.IncludedTaskfiles.constructor | taskfile/included_taskfile.go:27-31 | the zero registry: no keys and a nil map, which satisfies the registry invariant |
| IncludeRegistry.IncludedTaskfiles.Set | taskfile/included_taskfile.go:71-80 | the map is no longer nil; the new state is `Put` of the old one; the registry invariant is kept |
| IncludeRegistry.PutMeaning | taskfile/included_taskfile.go:71-80 | `Set` appends the key only if it is absent, keeps the old keys as a prefix, stores the value under the key, leaves every other value unchanged and keeps the invariant |
| IncludeRegistry.PutAllKeys | taskfile/included_taskfile.go:71-80 | after a run of `Set`s the keys are the old keys followed by the run's new keys, each once, in order of first appearance |
| IncludeRegistry.PutAllMapping | taskfile/included_taskfile.go:71-80 | after a run of `Set`s each key of the run holds the value of its last entry, and every other key keeps its value |
| IncludeRegistry.PutAllConsistent | taskfile/included_taskfile.go:71-80 | a run of `Set`s keeps the registry invariant |
| IncludeRegistry.IncludedTaskfiles.Merge | taskfile/included_taskfile.go:63-69 | a nil `other` changes nothing; otherwise the new state is `other`'s entries put in `other`'s key order, also when `other` is the receiver itself; the registry invariant is kept |
| IncludeRegistry.MergeKeys | taskfile/included_taskfile.go:63-69 | after a merge the keys are the receiver's keys followed by `other`'s keys not already present, in `other`'s order; the invariant is kept |
| IncludeRegistry.MergeValues | taskfile/included_taskfile.go:63-69 | after a merge `other`'s descriptors win, the receiver's other descriptors are kept, and the domain is the union |
| IncludeRegistry.IncludedTaskfiles.UnmarshalYAML | taskfile/included_taskfile.go:33-53 | a non-mapping node gives "task: includes is not a map" and changes nothing; otherwise the decoded pairs are `Set` in document order, up to the first value that fails to decode, whose error is returned; the registry invariant is kept |
| IncludeRegistry.DecodeEntriesStep | taskfile/included_taskfile.go:42-50 | decoding one more pair either stops with that value's error or appends the key and its decoded descriptor |
| IncludeRegistry.DecodeEntriesMeaning | taskfile/included_taskfile.go:42-52 | the decoded entries are the node's pairs in order; with no error, all of them; with an error, the prefix before the first failing value, which produced that error |
| IncludeRegistry.DecodeEntriesStops | taskfile/included_taskfile.go:47-49 | once a value has failed to decode, later pairs are never looked at |
| IncludeRegistry.FromEmpty | taskfile/included_taskfile.go:33-53 | decoding into an empty registry gives a consistent registry whose keys are the document's keys, each once, in order of first appearance, and each key holds its last occurrence's descriptor |
| IncludeRegistry.Len | taskfile/included_taskfile.go:55-61 | 0 for a nil registry, else the number of keys, which for a consistent registry is the number of stored descriptors |
| IncludeRegistry.Range | taskfile/included_taskfile.go:82-93 | a nil registry visits nothing; otherwise the visited entries are a prefix of the entries in key order; every call before the last returned no error; the error returned is the last call's; with no error every entry is visited |
| Loader.FirstExisting | read_taskfile.go:42-53 | the first of `.yml`, `.json`, `.toml` that exists, with no earlier candidate existing; none iff no candidate exists |
| Loader.MergeOverwrite | read_taskfile.go:33 | overlay entries replace base entries of the same name; other base entries stay; the names are the union |
| Loader.FirstCandidateDecides | read_taskfile.go:42-77 | the result depends only on the first candidate file that exists; later candidates are never consulted |
| Loader.NoCandidate | read_taskfile.go:42-77 | with no candidate file, the catalog read fails with "not found" and no tasks, and the variable read succeeds with the variables untouched |
| Loader.MissingOverlayKeepsBase | read_taskfile.go:25-33 | a missing OS overlay leaves the base catalog unchanged after the merge |
| Loader.Executor.ReadTaskfileData | read_taskfile.go:42-53 | the decoding of the first existing candidate, or no tasks and `taskFileNotFound{path}` |
| Loader.Executor.ReadTaskfile | read_taskfile.go:15-40 | a base read error is returned at once, with the tasks decoded so far; an overlay error other than "not found" is returned; otherwise the tasks are base overwritten by overlay, and the variable read's result and error follow |
| Loader.Executor.ReadTaskvarsFile | read_taskfile.go:55-77 | the variables and the error are the decoding of the first existing `Taskvars` candidate; with none, nothing changes and there is no error |
| Templater.CatLines | internal/templater/funcs.go:21-24 | the result has no `\n` (a lone `\r` survives), is no longer than the input, and is the input itself when it has no `\n` |
| Templater.SplitLines | internal/templater/funcs.go:25-28 | one more line than the input has `\n`s; no line holds `\n`; joining the lines with `\n` gives the input with `\r\n` normalised to `\n` |
| Templater.SplitJoin | internal/templater/funcs.go:25-28 | splitting a `\n`-join of `\n`-free lines gives those lines back (the other half of the round trip) |
| Templater.CatLinesJoinsLines | internal/templater/funcs.go:21-28 | `catLines(s)` is `splitLines(s)` joined with single spaces |
| Templater.ExeExt | internal/templater/funcs.go:35-40 | ".exe" iff the OS is windows, otherwise empty |
| Templater.IsSH | internal/templater/funcs.go:44-45 | always true |
| Templater.CopyOver | internal/templater/funcs.go:52-55 | the names are the union; the copied entries win; the other base entries stay |
| Templater.Init | internal/templater/funcs.go:17-56 | the table holds every sprig name and the twelve task names; each task name maps to its own function; the deprecated `FromSlash`, `ToSlash` and `ExeExt` equal `fromSlash`, `toSlash` and `exeExt`; sprig functions with other names are kept |

## Left out

- `internal/execext/exec.go` is not part of this model. This covers command running, the kill timeout, the null-device handlers and exit-status inspection. The word expander that `resolvePath` calls is an abstract parameter (`PathLib.expand`).
- `filepath.IsAbs`, `filepath.Abs`, `filepathext.SmartJoin` and `filepath.Join` are abstract parameters. Their behaviour is not modelled beyond "`Abs` returns absolute paths", which is an explicit hypothesis (`AbsIsAbsolute`).
- The YAML, JSON and TOML libraries, and `ioutil.ReadFile`, are abstract.
  - A descriptor decode is given by the two outcomes of the `unmarshal` callback.
  - A registry value node is turned into that callback by a `decoder` parameter.
  - Files are a map from path to bytes, so a read error other than "missing" is not modelled.
  - The decoders return the value decoded so far together with their error.
- `Loader.MergeOverwrite`: models `mergo.MapWithOverwrite` as a key-level overwrite. mergo's handling of nil and empty values, and its own errors, are not modelled.
- `Task` and `Var` contents are opaque, because their structure is defined outside these files. `Vars.DeepCopy` is modelled only through its promise: nil stays nil, otherwise a fresh equal copy.
- `OS`, `ARCH`, `fromSlash`, `toSlash`, `shellQuote` and the sprig library are represented by tags in the function table. Their behaviour belongs to the runtime or to libraries. `runtime.GOOS` is a parameter.
- `Templater.ReplaceAll`: requires a non-empty pattern, because Go's empty-pattern behaviour (inserting between every character) is never used here. `Templater.Split` splits on a single character only, the only separator used.
- `IncludeRegistry.IncludedTaskfiles.Merge`: iterates over `other`'s keys directly instead of passing a closure to `Range`. The observable effect is the same: each key is `Set` with `other`'s live value, in `other`'s key order.
- `IncludeRegistry.Range`: also returns the entries it visited, so that its calls can be described. A callback is a pure function of its arguments, so a callback with side effects is not modelled.
- `IncludeRegistry.IncludedTaskfiles.UnmarshalYAML`: requires a mapping node to have an even number of children. The YAML library guarantees this; with an odd number the Go loop would index past the end.
- A nil registry pointer as the receiver is not modelled: the receiver is never null. In Go, `Set` on a nil receiver always panics, because it reads the map field. `Merge` and `UnmarshalYAML` on a nil receiver panic only once they reach `Set`. Before that, `Merge` with a nil or empty `other` returns without effect. `UnmarshalYAML` on a non-mapping node returns "task: includes is not a map", and on an empty mapping it returns no error.
- `TaskFilePath` and `TaskvarsFilePath` are declared in a file that is not part of this model. Their values, "Taskfile" and "Taskvars", are taken as constants.
- Concurrency (a descriptor walked from several resolution paths at once) is not modelled. `DeepCopy`'s freshness of the variable set is the property that makes it safe.
