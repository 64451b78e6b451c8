/** The outside world the checker observes.  Every probe of it (running a
    command, testing a path, reading an environment variable) is a lookup
    in a value of type `World`, fixed for the duration of one run. */
module Host {

  datatype Option<+T> = None | Some(value: T)

  /** What running `[command, flag]` with a 10-second timeout gives back:
      exit status 0 with its standard output, a nonzero exit status, or one
      of the exceptions the checker catches (timeout, executable not found,
      other subprocess error). */
  datatype Outcome = Ok(stdout: string) | NonZero | Raised

  /** Operating systems as `platform.system()` names them. */
  datatype System = Darwin | Linux | Windows | OtherSystem

  type Path = string

  /** `dir / name` */
  function Join(dir: Path, name: string): Path
  {
    dir + "/" + name
  }

  /** A node of the filesystem: a regular file, or a directory with the
      names of its entries in the order the operating system lists them. */
  datatype Node = File | Dir(entries: seq<string>)

  datatype FileSystem = FileSystem(nodes: map<Path, Node>) {

    predicate Exists(p: Path)
    {
      p in nodes
    }

    predicate IsDir(p: Path)
    {
      p in nodes && nodes[p].Dir?
    }

    predicate IsFile(p: Path)
    {
      p in nodes && nodes[p].File?
    }

    /** The names `iterdir` yields; a glob below a non-directory finds nothing. */
    function Entries(dir: Path): seq<string>
    {
      if IsDir(dir) then nodes[dir].entries else []
    }

    /** The index of the first candidate that exists, if any: the
        first-match-wins search over a priority list of paths. */
    function FirstExisting(candidates: seq<Path>): (k: Option<nat>)
      ensures k.Some? ==> k.value < |candidates| && Exists(candidates[k.value])
      ensures k.Some? ==> forall j :: 0 <= j < k.value ==> !Exists(candidates[j])
      ensures k.None? <==> forall j :: 0 <= j < |candidates| ==> !Exists(candidates[j])
    {
      if candidates == [] then None
      else if Exists(candidates[0]) then Some(0)
      else match FirstExisting(candidates[1..])
        case Some(j) => Some(j + 1)
        case None => None
    }
  }

  datatype World = World(
    system: System,
    projectRoot: Path,
    home: Path,
    environ: map<string, string>,
    commands: map<seq<string>, Outcome>,
    fs: FileSystem)
  {
    /** `os.environ.get(name)` */
    function Getenv(name: string): Option<string>
    {
      if name in environ then Some(environ[name]) else None
    }

    /** Running `argv`; a command the world does not know is not found. */
    function Run(argv: seq<string>): Outcome
    {
      if argv in commands then commands[argv] else Raised
    }
  }
}
