/** The interpreter as the runner executes it, updating its tables in place. */
module StraceRunner {
  import opened Attempts
  import opened Strace
  import opened StraceReference
  import opened StraceProof

  class LogReader {
    const env: Env
    var processes: map<Pid, Process>
    var unfinished: map<Pid, string>
    var status: int

    constructor (env: Env)
      ensures this.env == env && State() == START
    {
      this.env := env;
      processes, unfinished, status := map[], map[], 0;
    }

    function State(): Trace
      reads this
    {
      Trace(processes, unfinished, status)
    }

    /** One line of the log. Nothing follows when it raises. */
    method MatchLine(line: Line) returns (r: Attempt<()>)
      modifies this
      ensures match StepLine(env, old(State()), line)
              case Done(t) => r == Done(()) && State() == t
              case Raised(f) => r == Raised(f)
    {
      var body := line.body;
      if line.Unfinished? {
        unfinished := unfinished[line.pid := line.body];
        return Done(());
      } else if line.Resumed? {
        if line.pid !in unfinished { return Raised(KeyError); }
        body := unfinished[line.pid] + line.body;
        unfinished := unfinished - {line.pid};
      }
      r := MatchBody(line.pid, body);
    }

    method MatchBody(pid: Pid, body: string) returns (r: Attempt<()>)
      modifies this
      ensures match StepBody(env, old(State()), pid, body)
              case Done(t) => r == Done(()) && State() == t
              case Raised(f) => r == Raised(f)
    {
      var c := env.parse(body);
      if c.Clone? {
        if pid !in processes { return Raised(KeyError); }
        if c.child !in processes {
          processes := processes[c.child := NEW_PROCESS.(cwd := processes[pid].cwd)];
        } else {
          var p := processes[c.child].(cwd := processes[pid].cwd, delayed := false);
          p := ReplayLines(p);
          processes := processes[c.child := p];
        }
      } else if IsFile(c) || c.Chdir? {
        if pid !in processes {
          processes := processes[pid := if c.Execve? && |processes| == 0 then NEW_PROCESS else DELAYED_PROCESS];
        }
        var p := processes[pid];
        if p.delayed {
          p := p.(delayedLines := p.delayedLines + [body]);
        } else {
          p := Apply(env, p, c);
        }
        assert processes[pid := p] == old(processes)[pid := p];
        processes := processes[pid := p];
      } else if c.ExitGroup? {
        status := c.status;
      }
      return Done(());
    }

    /** The delayed lines of a process, then none. */
    method ReplayLines(p: Process) returns (q: Process)
      ensures q == ApplyAll(env, p, p.delayedLines).(delayedLines := [])
    {
      var i := 0;
      q := p;
      while i < |p.delayedLines|
        invariant 0 <= i <= |p.delayedLines|
        invariant q == ApplyAll(env, p, p.delayedLines[..i])
      {
        assert p.delayedLines[..i + 1][..i] == p.delayedLines[..i];
        q := Apply(env, q, env.parse(p.delayedLines[i]));
        i := i + 1;
      }
      assert p.delayedLines[..i] == p.delayedLines;
      q := q.(delayedLines := []);
    }

    /** Read a whole log, then gather what all processes used. */
    method ReadLog(log: seq<Line>, ghost root: Pid) returns (r: Attempt<()>, deps: set<Path>, outputs: set<Path>)
      requires State() == START
      modifies this
      ensures r.Done? <==> Interpret(env, log).Done?
      ensures r.Done? ==>
        State() == Interpret(env, log).value && deps == AllDeps(State()) && outputs == AllOutputs(State())
      ensures WellFormed(env, log, root) ==>
        && (r.Raised? <==> exists i :: 0 <= i < |log| && Unknown(env, log, root, i))
        && (r.Done? ==> status == LastStatus(env, log, |log|))
      ensures WellFormed(env, log, root) && Rooted(env, log, root) && EarlyAtHome(env, log, root) && r.Done? ==>
        deps == Files(env, log, root, false) && outputs == Files(env, log, root, true)
    {
      deps, outputs := {}, {};
      var i := 0;
      while i < |log|
        invariant 0 <= i <= |log|
        invariant Interpret(env, log[..i]) == Done(State())
      {
        assert log[..i + 1][..i] == log[..i];
        r := MatchLine(log[i]);
        if r.Raised? {
          RaisedPrefix(env, log, i + 1);
          if WellFormed(env, log, root) {
            ReplayEqualsOrder(env, log, root);
          }
          return;
        }
        i := i + 1;
      }
      assert log[..i] == log;
      var left := processes.Keys;
      while left != {}
        invariant left <= processes.Keys
        invariant deps == set pid, name | pid in processes && pid !in left && name in processes[pid].deps :: name
        invariant outputs == set pid, name | pid in processes && pid !in left && name in processes[pid].outputs :: name
      {
        var pid :| pid in left;
        deps, outputs := deps + processes[pid].deps, outputs + processes[pid].outputs;
        left := left - {pid};
      }
      r := Done(());
      if WellFormed(env, log, root) {
        ReplayEqualsOrder(env, log, root);
      }
    }
  }
}
