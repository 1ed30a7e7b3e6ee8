/** One include descriptor (`IncludedTaskfile`): how it is decoded from either
    of its two YAML forms, how it is deep-copied, and how its taskfile and
    directory paths are made absolute. */
module IncludeDescriptor {
  import opened Wrappers
  import opened Errors

  /** `*Vars`: the ordered variable set an include may pass on. It is a
      reference, so that a copy that shares it can be told apart from one that
      owns its own. A variable's definition is represented by its text. */
  class Vars {
    var keys: seq<string>
    var mapping: map<string, string>

    constructor (keys: seq<string>, mapping: map<string, string>)
      ensures this.keys == keys && this.mapping == mapping
    {
      this.keys := keys;
      this.mapping := mapping;
    }
  }

  /** `Vars.DeepCopy` (its definition is not part of this model): nil stays nil,
      anything else becomes a newly allocated, equal variable set. */
  method CopyVars(v: Vars?) returns (c: Vars?)
    ensures v == null <==> c == null
    ensures v != null ==> fresh(c) && c.keys == v.keys && c.mapping == v.mapping
  {
    if v == null {
      c := null;
    } else {
      c := new Vars(v.keys, v.mapping);
    }
  }

  /** An include descriptor. `aliases` is Go's `[]string`, where nil and empty
      behave alike; `vars` is a nullable pointer; `baseDir` is the directory of
      the taskfile that declared the include. */
  datatype IncludedTaskfile = IncludedTaskfile(
    taskfile: string,
    dir: string,
    optional: bool,
    internal: bool,
    aliases: seq<string>,
    advancedImport: bool,
    vars: Vars?,
    baseDir: string)

  /** Go's zero value of `IncludedTaskfile`. */
  const Zero: IncludedTaskfile := IncludedTaskfile("", "", false, false, [], false, null, "")

  /** The anonymous struct that the expanded (object) form is decoded into. */
  datatype IncludeFields = IncludeFields(
    taskfile: string,
    dir: string,
    optional: bool,
    internal: bool,
    aliases: seq<string>,
    vars: Vars?)

  /** The `unmarshal` callback the YAML library hands to `UnmarshalYAML`, given
      by what it yields for the node at hand: decoding it into a string, and
      decoding it into the struct of the object form. The YAML library itself is
      not part of this model. */
  datatype Unmarshal = Unmarshal(
    asString: Result<string, Error>,
    asFields: Result<IncludeFields, Error>)

  /** `(*IncludedTaskfile).UnmarshalYAML`: decodes into the existing descriptor
      `it`. The bare-string form is tried first and sets the taskfile path only;
      otherwise the object form sets the six declared fields and marks the
      descriptor as an advanced import. */
  function UnmarshalYAML(it: IncludedTaskfile, u: Unmarshal): (r: Result<IncludedTaskfile, Error>)
    // decoding fails exactly when neither form applies, with the object form's error
    ensures r.Success? <==> u.asString.Success? || u.asFields.Success?
    ensures r.Failure? ==> r.error == u.asFields.error
    // the shorthand form: only the taskfile path changes
    ensures u.asString.Success? ==>
      && r.Success?
      && r.value.taskfile == u.asString.value
      && r.value.(taskfile := it.taskfile) == it
    // the expanded form: the declared fields are copied and the flag is raised
    ensures u.asString.Failure? && u.asFields.Success? ==>
      var f := u.asFields.value;
      && r.Success?
      && r.value.taskfile == f.taskfile && r.value.dir == f.dir
      && r.value.optional == f.optional && r.value.internal == f.internal
      && r.value.aliases == f.aliases && r.value.vars == f.vars
      && r.value.advancedImport
      && r.value.baseDir == it.baseDir
    // starting from a fresh descriptor, the flag tells which form was used
    ensures r.Success? && !it.advancedImport ==> (r.value.advancedImport <==> u.asString.Failure?)
  {
    match u.asString
    case Success(str) => Success(it.(taskfile := str))
    case Failure(_) =>
      match u.asFields
      case Failure(e) => Failure(e)
      case Success(f) =>
        Success(it.(taskfile := f.taskfile, dir := f.dir, optional := f.optional,
                    internal := f.internal, aliases := f.aliases,
                    advancedImport := true, vars := f.vars))
  }

  /** `(*IncludedTaskfile).DeepCopy`: nil gives nil; otherwise a new descriptor
      with the same scalar fields and its own copy of the variable set. The
      aliases are not copied, so the copy has none. */
  method DeepCopy(it: Option<IncludedTaskfile>) returns (r: Option<IncludedTaskfile>)
    ensures it.None? <==> r.None?
    ensures it.Some? ==>
      var s, c := it.value, r.value;
      && c.taskfile == s.taskfile && c.dir == s.dir
      && c.optional == s.optional && c.internal == s.internal
      && c.advancedImport == s.advancedImport && c.baseDir == s.baseDir
      && c.aliases == []
      && (s.vars == null <==> c.vars == null)
      && (s.vars != null ==> fresh(c.vars) && c.vars.keys == s.vars.keys && c.vars.mapping == s.vars.mapping)
  {
    if it.None? {
      return None;
    }
    var s := it.value;
    var vars := CopyVars(s.vars);
    r := Some(IncludedTaskfile(s.taskfile, s.dir, s.optional, s.internal, [], s.advancedImport, vars, s.baseDir));
  }

  /** Changing a variable in a deep copy leaves the original's variables as they
      were: the copy shares no variable set with its source. */
  method SetVarInCopy(it: IncludedTaskfile, name: string, value: string) returns (c: IncludedTaskfile)
    requires it.vars != null
    ensures it.vars.keys == old(it.vars.keys) && it.vars.mapping == old(it.vars.mapping)
    ensures c.vars != null && c.vars.mapping == it.vars.mapping[name := value]
  {
    var copy := DeepCopy(Some(it));
    c := copy.value;
    c.vars.mapping := c.vars.mapping[name := value];
  }

  /** The path primitives `resolvePath` relies on, none of which is part of this
      model: the shell word expander, `filepath.IsAbs`, `filepathext.SmartJoin`
      and `filepath.Abs`. */
  datatype PathLib = PathLib(
    expand: string -> Result<string, Error>,
    isAbs: string -> bool,
    smartJoin: (string, string) -> string,
    abs: string -> Result<string, Error>)

  /** The one thing assumed of the path primitives: what `Abs` returns is absolute. */
  ghost predicate AbsIsAbsolute(lib: PathLib)
  {
    forall p :: lib.abs(p).Success? ==> lib.isAbs(lib.abs(p).value)
  }

  /** `resolvePath`: expand the path; keep it if it is absolute; otherwise join
      it onto the base directory and make that absolute, wrapping a failure with
      the path and the base directory. */
  function ResolvePath(it: IncludedTaskfile, lib: PathLib, path: string): (r: Result<string, Error>)
    // an expansion error is passed on unchanged
    ensures lib.expand(path).Failure? ==> r == Failure(lib.expand(path).error)
    // an absolute expansion is the answer, whatever the base directory
    ensures lib.expand(path).Success? && lib.isAbs(lib.expand(path).value) ==>
      r == Success(lib.expand(path).value)
    // a relative expansion is resolved against the base directory
    ensures lib.expand(path).Success? && !lib.isAbs(lib.expand(path).value) && r.Success? ==>
      lib.abs(lib.smartJoin(it.baseDir, lib.expand(path).value)) == r
    // any other failure names the expanded path and the base directory
    ensures r.Failure? && lib.expand(path).Success? ==>
      && lib.abs(lib.smartJoin(it.baseDir, lib.expand(path).value)).Failure?
      && r.error == ResolvePathFailed(lib.expand(path).value, it.baseDir,
                                   lib.abs(lib.smartJoin(it.baseDir, lib.expand(path).value)).error)
    // every resolved path is absolute
    ensures r.Success? && AbsIsAbsolute(lib) ==> lib.isAbs(r.value)
  {
    match lib.expand(path)
    case Failure(e) => Failure(e)
    case Success(p) =>
      if lib.isAbs(p) then Success(p)
      else
        match lib.abs(lib.smartJoin(it.baseDir, p))
        case Failure(e) => Failure(ResolvePathFailed(p, it.baseDir, e))
        case Success(a) => Success(a)
  }

  /** `FullTaskfilePath`: the resolved taskfile path. */
  function FullTaskfilePath(it: IncludedTaskfile, lib: PathLib): (r: Result<string, Error>)
    ensures r == ResolvePath(it, lib, it.taskfile)
    ensures r.Success? && AbsIsAbsolute(lib) ==> lib.isAbs(r.value)
  {
    ResolvePath(it, lib, it.taskfile)
  }

  /** `FullDirPath`: the resolved working directory. */
  function FullDirPath(it: IncludedTaskfile, lib: PathLib): (r: Result<string, Error>)
    ensures r == ResolvePath(it, lib, it.dir)
    ensures r.Success? && AbsIsAbsolute(lib) ==> lib.isAbs(r.value)
  {
    ResolvePath(it, lib, it.dir)
  }

  /** Two descriptors that differ only in their base directory resolve an
      absolute path alike: the base directory is ignored for absolute paths. */
  lemma BaseDirIgnoredForAbsolutePaths(a: IncludedTaskfile, b: IncludedTaskfile, lib: PathLib, path: string)
    requires lib.expand(path).Success? && lib.isAbs(lib.expand(path).value)
    ensures ResolvePath(a, lib, path) == ResolvePath(b, lib, path)
  {
  }

  /** A deep copy resolves both of its paths exactly as its source does. */
  lemma CopyResolvesAlike(s: IncludedTaskfile, c: IncludedTaskfile, lib: PathLib)
    requires c.taskfile == s.taskfile && c.dir == s.dir && c.baseDir == s.baseDir
    ensures FullTaskfilePath(c, lib) == FullTaskfilePath(s, lib)
    ensures FullDirPath(c, lib) == FullDirPath(s, lib)
  {
  }
}
