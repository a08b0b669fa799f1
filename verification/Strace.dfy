/** The strace log interpreter: which files a traced command, with all the processes it
    spawned, has read and written. */
module Strace {
  import opened Attempts

  type Pid = string
  type Path = string

  /** What a complete line says, once tokenised. */
  datatype Call =
    | Open(name: Path, mode: string)
    | Stat(name: Path)
    | Execve(name: Path)
    | Creat(name: Path)
    | Mkdir(name: Path, result: string)
    | Symlink(name: Path)
    | Rename(name: Path)
    | Clone(child: Pid)
    | Chdir(cwd: Path)
    | ExitGroup(status: int)
    | Killed
    | Other

  /** A line of the log. A call interrupted by another process's line is split in two. */
  datatype Line =
    | Whole(pid: Pid, body: string)
    | Unfinished(pid: Pid, body: string)
    | Resumed(pid: Pid, body: string)

  /** The tokeniser, `os.path.normpath` with the removal of the build directory, and the
      tests on the final name (relevant, not ignored, existing) are parameters. */
  datatype Env = Env(parse: string -> Call, normalise: Path -> Path, keep: Path -> bool)

  datatype Process = Process(cwd: Path, deps: set<Path>, outputs: set<Path>, delayed: bool, delayedLines: seq<string>)

  datatype Trace = Trace(processes: map<Pid, Process>, unfinished: map<Pid, string>, status: int)

  const NEW_PROCESS := Process(".", {}, {}, false, [])
  const DELAYED_PROCESS := Process(".", {}, {}, true, [])
  const START := Trace(map[], map[], 0)

  // ----- names -----

  predicate OccursAt(needle: string, text: string, i: nat) {
    i + |needle| <= |text| && text[i..i + |needle|] == needle
  }

  /** Python's `needle in text`. */
  predicate Occurs(needle: string, text: string) {
    exists i :: 0 <= i <= |text| && OccursAt(needle, text, i)
  }

  function JoinPath(a: Path, b: Path): Path {
    if b != [] && b[0] == '/' then b
    else if a == [] || a[|a| - 1] == '/' then a + b
    else a + "/" + b
  }

  /** The name as it is recorded, for a process whose directory is `cwd`. */
  function Resolve(env: Env, cwd: Path, name: Path): Path {
    env.normalise(if cwd == "." then name else JoinPath(cwd, name))
  }

  predicate IsFile(c: Call) {
    c.Open? || c.Stat? || c.Execve? || c.Creat? || c.Mkdir? || c.Symlink? || c.Rename?
  }

  predicate IsOutput(c: Call) {
    match c
    case Open(_, mode) => Occurs("O_WRONLY", mode) || Occurs("O_RDWR", mode)
    case Mkdir(_, result) => result == "0"
    case Creat(_) => true
    case Symlink(_) => true
    case Rename(_) => true
    case _ => false
  }

  // ----- the interpreter, one line at a time -----

  /** A file call or a change of directory, by a process whose lines are not delayed. */
  function Apply(env: Env, p: Process, c: Call): Process {
    if IsFile(c) then
      var name := Resolve(env, p.cwd, c.name);
      if !env.keep(name) then p
      else if IsOutput(c) then p.(outputs := p.outputs + {name})
      else p.(deps := p.deps + {name})
    else if c.Chdir? then p.(cwd := JoinPath(p.cwd, c.cwd))
    else p
  }

  function ApplyAll(env: Env, p: Process, bodies: seq<string>): Process {
    if bodies == [] then p
    else Apply(env, ApplyAll(env, p, bodies[..|bodies| - 1]), env.parse(bodies[|bodies| - 1]))
  }

  /** A line that is not split any more. */
  function StepBody(env: Env, t: Trace, pid: Pid, body: string): Attempt<Trace> {
    var c := env.parse(body);
    match c
    case Killed => Done(t)
    case Other => Done(t)
    case ExitGroup(status) => Done(t.(status := status))
    case Clone(child) =>
      if pid !in t.processes then Raised(KeyError)
      else if child !in t.processes then
        Done(t.(processes := t.processes[child := NEW_PROCESS.(cwd := t.processes[pid].cwd)]))
      else
        var p := t.processes[child].(cwd := t.processes[pid].cwd, delayed := false);
        Done(t.(processes := t.processes[child := ApplyAll(env, p, p.delayedLines).(delayedLines := [])]))
    case _ =>
      var p :=
        if pid in t.processes then t.processes[pid]
        else if c.Execve? && |t.processes| == 0 then NEW_PROCESS
        else DELAYED_PROCESS;
      Done(t.(processes := t.processes[pid := if p.delayed then p.(delayedLines := p.delayedLines + [body])
        else Apply(env, p, c)]))
  }

  function StepLine(env: Env, t: Trace, line: Line): Attempt<Trace> {
    match line
    case Whole(pid, body) => StepBody(env, t, pid, body)
    case Unfinished(pid, body) => Done(t.(unfinished := t.unfinished[pid := body]))
    case Resumed(pid, body) =>
      if pid !in t.unfinished then Raised(KeyError)
      else StepBody(env, t.(unfinished := t.unfinished - {pid}), pid, t.unfinished[pid] + body)
  }

  function Interpret(env: Env, log: seq<Line>): Attempt<Trace> {
    if log == [] then Done(START)
    else
      match Interpret(env, log[..|log| - 1])
      case Raised(f) => Raised(f)
      case Done(t) => StepLine(env, t, log[|log| - 1])
  }

  function AllDeps(t: Trace): set<Path> {
    set pid, name | pid in t.processes && name in t.processes[pid].deps :: name
  }

  function AllOutputs(t: Trace): set<Path> {
    set pid, name | pid in t.processes && name in t.processes[pid].outputs :: name
  }
}
