/** The taskfile loader: reading the task catalog from the first of
    `Taskfile.yml`, `Taskfile.json`, `Taskfile.toml` that exists, merging the
    operating-system overlay `Taskfile_<os>` over it, and reading the shared
    variables from `Taskvars`. The disk is a map from path to contents and the
    three decoders are parameters. */
module Loader {
  import opened Wrappers
  import opened Errors

  type Bytes = seq<bv8>

  /** The files on disk: a path can be read exactly when it is in the map. */
  type FileSystem = map<string, Bytes>

  datatype Format = Yml | Json | Toml

  function Extension(f: Format): string
  {
    match f
    case Yml => ".yml"
    case Json => ".json"
    case Toml => ".toml"
  }

  /** The place of a format in the search order. */
  function Rank(f: Format): nat
  {
    match f
    case Yml => 0
    case Json => 1
    case Toml => 2
  }

  /** What a decoder leaves behind: the value it decoded into, even a partial
      one, and the error it returned, if any. */
  datatype Decoded<T> = Decoded(value: T, err: Option<Error>)

  /** A task definition. Its inner shape is not part of this model; it stands
      for whatever the decoders produce. */
  datatype Task = Task(definition: string)

  /** The task catalog: task name to definition. A nil Go map reads as empty. */
  type Catalog = map<string, Task>

  /** The shared variable set: variable name to value. */
  type Taskvars = map<string, string>

  /** The YAML, JSON and TOML decoders, none of which is part of this model.
      The variable decoder decodes into the existing variable set, as Go's
      `Unmarshal(b, &e.taskvars)` does. */
  datatype Codecs = Codecs(
    tasks: (Format, Bytes) -> Decoded<Catalog>,
    taskvars: (Format, Bytes, Taskvars) -> Decoded<Taskvars>)

  /** The host: its operating system name (`runtime.GOOS`), its disk, and
      `filepath.Join`, which is not part of this model. */
  datatype Host = Host(goos: string, fs: FileSystem, join: (string, string) -> string)

  /** The logical names of the taskfile and of the shared-variable file, which
      are declared outside the loader. */
  const TaskFilePath: string := "Taskfile"
  const TaskvarsFilePath: string := "Taskvars"

  /** The overlay name: `fmt.Sprintf("%s_%s", path, goos)`. */
  function OverlayPath(path: string, goos: string): string
  {
    path + "_" + goos
  }

  /** The format of the first candidate file that exists, searching `.yml`,
      then `.json`, then `.toml`. */
  function FirstExisting(fs: FileSystem, path: string): (r: Option<Format>)
    ensures r.Some? ==> path + Extension(r.value) in fs
    ensures r.Some? ==> forall g :: Rank(g) < Rank(r.value) ==> path + Extension(g) !in fs
    ensures r.None? <==> forall g :: path + Extension(g) !in fs
  {
    if path + ".yml" in fs then Some(Yml)
    else if path + ".json" in fs then Some(Json)
    else if path + ".toml" in fs then Some(Toml)
    else None
  }

  /** What `readTaskfileData(path)` returns: the decoding of the first
      candidate that exists, or `taskFileNotFound{path}` with no tasks. */
  function TaskfileData(fs: FileSystem, codecs: Codecs, path: string): Decoded<Catalog>
  {
    match FirstExisting(fs, path)
    case None => Decoded(map[], Some(TaskFileNotFound(path)))
    case Some(f) => codecs.tasks(f, fs[path + Extension(f)])
  }

  /** What `readTaskvarsFile` leaves in the variable set and returns: the
      decoding of the first candidate into the current set, or, when none
      exists, the current set untouched and no error. */
  function TaskvarsData(fs: FileSystem, codecs: Codecs, file: string, current: Taskvars): Decoded<Taskvars>
  {
    match FirstExisting(fs, file)
    case None => Decoded(current, None)
    case Some(f) => codecs.taskvars(f, fs[file + Extension(f)], current)
  }

  /** `mergo.MapWithOverwrite` as a key-level overwrite: overlay entries
      replace base entries with the same name, and the other base entries
      stay. */
  function MergeOverwrite(base: Catalog, overlay: Catalog): (r: Catalog)
    ensures r.Keys == base.Keys + overlay.Keys
    ensures forall k :: k in overlay ==> r[k] == overlay[k]
    ensures forall k :: k in base && k !in overlay ==> r[k] == base[k]
  {
    base + overlay
  }

  /** The first candidate that exists decides the outcome: the candidates after
      it are never looked at, so a decode error in it is final. */
  lemma FirstCandidateDecides(fs1: FileSystem, fs2: FileSystem, codecs: Codecs, path: string, f: Format)
    requires FirstExisting(fs1, path) == Some(f)
    requires forall g :: Rank(g) < Rank(f) ==> path + Extension(g) !in fs2
    requires path + Extension(f) in fs2 && fs2[path + Extension(f)] == fs1[path + Extension(f)]
    ensures TaskfileData(fs2, codecs, path) == TaskfileData(fs1, codecs, path)
    ensures forall current :: TaskvarsData(fs2, codecs, path, current) == TaskvarsData(fs1, codecs, path, current)
  {
    assert FirstExisting(fs2, path) == Some(f) by {
      match f
      case Yml =>
      case Json => assert Rank(Yml) < Rank(f);
      case Toml => assert Rank(Yml) < Rank(f) && Rank(Json) < Rank(f);
    }
  }

  /** With no candidate file, the catalog read fails with "not found" and the
      shared-variable read succeeds with the set untouched. */
  lemma NoCandidate(fs: FileSystem, codecs: Codecs, path: string, current: Taskvars)
    requires forall g :: path + Extension(g) !in fs
    ensures TaskfileData(fs, codecs, path) == Decoded(map[], Some(TaskFileNotFound(path)))
    ensures TaskvarsData(fs, codecs, path, current) == Decoded(current, None)
  {
  }

  /** A missing overlay leaves the base catalog as it is. */
  lemma MissingOverlayKeepsBase(fs: FileSystem, codecs: Codecs, path: string, goos: string, base: Catalog)
    requires FirstExisting(fs, OverlayPath(path, goos)).None?
    ensures MergeOverwrite(base, TaskfileData(fs, codecs, OverlayPath(path, goos)).value) == base
  {
  }

  /** The executor's loading state. */
  class Executor {
    var dir: string
    var tasks: Catalog
    var taskvars: Taskvars

    constructor (dir: string)
      ensures this.dir == dir && tasks == map[] && taskvars == map[]
    {
      this.dir := dir;
      tasks := map[];
      taskvars := map[];
    }

    /** `readTaskfileData`: tries `path.yml`, `path.json`, `path.toml` in turn
        and returns the decoding of the first that can be read. */
    method ReadTaskfileData(fs: FileSystem, codecs: Codecs, path: string) returns (tasks: Catalog, err: Option<Error>)
      ensures FirstExisting(fs, path).None? ==> tasks == map[] && err == Some(TaskFileNotFound(path))
      ensures FirstExisting(fs, path).Some? ==>
        var f := FirstExisting(fs, path).value;
        Decoded(tasks, err) == codecs.tasks(f, fs[path + Extension(f)])
      ensures Decoded(tasks, err) == TaskfileData(fs, codecs, path)
    {
      if path + ".yml" in fs {
        var d := codecs.tasks(Yml, fs[path + ".yml"]);
        return d.value, d.err;
      }
      if path + ".json" in fs {
        var d := codecs.tasks(Json, fs[path + ".json"]);
        return d.value, d.err;
      }
      if path + ".toml" in fs {
        var d := codecs.tasks(Toml, fs[path + ".toml"]);
        return d.value, d.err;
      }
      return map[], Some(TaskFileNotFound(path));
    }

    /** `ReadTaskfile`: reads the base catalog into `tasks` (an error there is
        returned at once), then the overlay for the host's operating system (an
        error other than "not found" is returned), merges the overlay over the
        base, and finally reads the shared variables. */
    method ReadTaskfile(host: Host, codecs: Codecs) returns (err: Option<Error>)
      modifies this
      ensures dir == old(dir)
      ensures
        var path := host.join(old(dir), TaskFilePath);
        var base := TaskfileData(host.fs, codecs, path);
        var overlay := TaskfileData(host.fs, codecs, OverlayPath(path, host.goos));
        var vars := TaskvarsData(host.fs, codecs, host.join(old(dir), TaskvarsFilePath), old(taskvars));
        if base.err.Some? then
          err == base.err && tasks == base.value && taskvars == old(taskvars)
        else if overlay.err.Some? && !overlay.err.value.TaskFileNotFound? then
          err == overlay.err && tasks == base.value && taskvars == old(taskvars)
        else
          tasks == MergeOverwrite(base.value, overlay.value) && taskvars == vars.value && err == vars.err
    {
      var path := host.join(dir, TaskFilePath);
      var e;
      tasks, e := ReadTaskfileData(host.fs, codecs, path);
      if e.Some? {
        return e;
      }
      var osTasks;
      osTasks, e := ReadTaskfileData(host.fs, codecs, OverlayPath(path, host.goos));
      if e.Some? && !e.value.TaskFileNotFound? {
        return e;
      }
      tasks := MergeOverwrite(tasks, osTasks);
      err := ReadTaskvarsFile(host, codecs);
    }

    /** `readTaskvarsFile`: decodes the first of `Taskvars.yml`,
        `Taskvars.json`, `Taskvars.toml` that can be read into `taskvars`;
        when none can, nothing changes and there is no error. */
    method ReadTaskvarsFile(host: Host, codecs: Codecs) returns (err: Option<Error>)
      modifies this`taskvars
      ensures Decoded(taskvars, err) == TaskvarsData(host.fs, codecs, host.join(dir, TaskvarsFilePath), old(taskvars))
    {
      var file := host.join(dir, TaskvarsFilePath);
      if file + ".yml" in host.fs {
        var d := codecs.taskvars(Yml, host.fs[file + ".yml"], taskvars);
        taskvars := d.value;
        return d.err;
      }
      if file + ".json" in host.fs {
        var d := codecs.taskvars(Json, host.fs[file + ".json"], taskvars);
        taskvars := d.value;
        return d.err;
      }
      if file + ".toml" in host.fs {
        var d := codecs.taskvars(Toml, host.fs[file + ".toml"], taskvars);
        taskvars := d.value;
        return d.err;
      }
      return None;
    }
  }
}
