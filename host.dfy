/**
 * The parts of the operating system the backend touches: the process
 * environment (`os.environ`, `os.getenv`) and the filesystem
 * (`os.path.exists`, `os.path.isdir`, `os.remove`).
 */
module Host {
  import opened Outcomes

  /** `os.getenv(key, default)` on an environment snapshot. */
  function GetEnv(vars: map<string, string>, key: string, default: string): (v: string)
    ensures key in vars ==> v == vars[key]
    ensures key !in vars ==> v == default
  {
    if key in vars then vars[key] else default
  }

  /** `os.environ.get(key)`: `None` when the variable is unset. */
  function LookupEnv(vars: map<string, string>, key: string): (v: Option<string>)
    ensures v.Some? <==> key in vars
    ensures v.Some? ==> v.value == vars[key]
  {
    if key in vars then Some(vars[key]) else None
  }

  /** The process environment, which the cloud backend rewrites in place. */
  class Environment {
    var vars: map<string, string>

    constructor (initial: map<string, string>)
      ensures vars == initial
    {
      vars := initial;
    }

    /** `os.environ[key] = value` */
    method Set(key: string, value: string)
      modifies this
      ensures vars == old(vars)[key := value]
    {
      vars := vars[key := value];
    }

    /** `os.environ.pop(key, None)`: removing an unset key is not an error. */
    method Pop(key: string)
      modifies this
      ensures vars == old(vars) - {key}
    {
      vars := vars - {key};
    }
  }

  /** The filesystem, as the paths of existing files and of existing directories. */
  class Disk {
    var files: set<string>
    var dirs: set<string>

    constructor (files0: set<string>, dirs0: set<string>)
      ensures files == files0 && dirs == dirs0
    {
      files, dirs := files0, dirs0;
    }

    /** `os.path.exists(path)` for a regular file. */
    function Exists(path: string): bool
      reads this
    {
      path in files
    }

    /**
     * `os.remove(path)` / `os.unlink(path)`. `permitted` is whether the
     * operating system allows the deletion; the error raised when the file is
     * missing or the deletion is refused is returned instead of raised.
     */
    method Remove(path: string, permitted: bool) returns (err: Option<Failure>)
      modifies this
      ensures path in old(files) && permitted ==> err == None && files == old(files) - {path}
      ensures path !in old(files) ==> err == Some(Failure(FileNotFoundError, path)) && files == old(files)
      ensures path in old(files) && !permitted ==> err.Some? && files == old(files)
      ensures dirs == old(dirs)
    {
      if path !in files {
        err := Some(Failure(FileNotFoundError, path));
      } else if !permitted {
        err := Some(Failure(PermissionError, path));
      } else {
        files := files - {path};
        err := None;
      }
    }
  }
}
