/** Interpreting a log line by line gives what the log means. */
module StraceProof {
  import opened Attempts
  import opened Strace
  import opened StraceReference

  // ----- where the interpreter starts a process -----

  /** When a process came to be: the root first, then in order of the clone lines. */
  function Rank(env: Env, log: seq<Line>, root: Pid, pid: Pid): nat {
    if pid == root then 0 else Birth(env, log, 0, pid) + 1
  }

  /** In the directory its parent is in, unless the line of the parent's own clone is still to come. */
  function SeenStart(env: Env, log: seq<Line>, root: Pid, pid: Pid): Path
    decreases Rank(env, log, root, pid)
  {
    var b := Birth(env, log, 0, pid);
    if pid == root || b == |log| || Rank(env, log, root, log[b].pid) > b then "."
    else CwdFrom(env, log, SeenStart(env, log, root, log[b].pid), b, log[b].pid)
  }

  ghost predicate IsSeen(env: Env, log: seq<Line>, root: Pid, start: Pid -> Path) {
    forall pid :: start(pid) == SeenStart(env, log, root, pid)
  }

  /** The directory the interpreter has for `pid` before line `n`. */
  function SeenCwd(env: Env, log: seq<Line>, root: Pid, start: Pid -> Path, n: nat, pid: Pid): Path
    requires n <= |log|
  {
    if Rank(env, log, root, pid) > n then "." else CwdFrom(env, log, start(pid), n, pid)
  }

  // ----- one process, up to a position -----

  /** The file calls and changes of directory completed by `pid` before `n`. */
  function StepsBefore(env: Env, log: seq<Line>, n: nat, pid: Pid): seq<string>
    requires n <= |log|
  {
    if n == 0 then []
    else
      var before := StepsBefore(env, log, n - 1, pid);
      if log[n - 1].pid == pid && IsStep(CallAt(env, log, n - 1)) then before + [BodyAt(log, n - 1)] else before
  }

  function FilesBefore(env: Env, log: seq<Line>, start: Pid -> Path, n: nat, pid: Pid, output: bool): set<Path>
    requires n <= |log|
  {
    set i | 0 <= i < n && log[i].pid == pid && Records(env, log, start, i, output) :: NameAt(env, log, start, i)
  }

  lemma FilesStep(env: Env, log: seq<Line>, start: Pid -> Path, n: nat, pid: Pid, output: bool)
    requires n < |log|
    ensures FilesBefore(env, log, start, n + 1, pid, output) == FilesBefore(env, log, start, n, pid, output)
      + if log[n].pid == pid && Records(env, log, start, n, output) then {NameAt(env, log, start, n)} else {}
  {
  }

  /** The entry `p` of a process that is not delayed holds what its calls before `n` amount to. */
  ghost predicate UpTo(env: Env, log: seq<Line>, start: Pid -> Path, n: nat, pid: Pid, p: Process)
    requires n <= |log|
  {
    && p.cwd == CwdFrom(env, log, start(pid), n, pid)
    && p.deps == FilesBefore(env, log, start, n, pid, false) && p.outputs == FilesBefore(env, log, start, n, pid, true)
  }

  /** The interpreter tells files that are written from those that are read as the reference does. */
  lemma TestsAgree(c: Call)
    ensures IsFile(c) <==> Writes(c) || Reads(c)
    ensures IsFile(c) ==> (IsOutput(c) <==> Writes(c)) && (IsOutput(c) <==> !Reads(c))
  {
    if c.Open? {
      WordsAgree("O_WRONLY", c.mode);
      WordsAgree("O_RDWR", c.mode);
    }
  }

  /** The word stands at some place of the mode. */
  lemma {:induction false} WordsAgree(word: string, mode: string)
    ensures HasWord(mode, word) <==> exists i :: 0 <= i <= |mode| && OccursAt(word, mode, i)
    ensures HasWord(mode, word) <==> Occurs(word, mode)
  {
    if word <= mode {
      assert OccursAt(word, mode, 0);
    } else if mode != [] {
      WordsAgree(word, mode[1..]);
      forall i | 0 < i <= |mode| ensures OccursAt(word, mode, i) <==> OccursAt(word, mode[1..], i - 1) {
        OneFurther(word, mode, i);
      }
      if i :| 0 <= i <= |mode[1..]| && OccursAt(word, mode[1..], i) {
        assert OccursAt(word, mode, i + 1);
      }
    }
  }

  lemma OneFurther(word: string, mode: string, i: nat)
    requires 0 < i <= |mode|
    ensures OccursAt(word, mode, i) <==> OccursAt(word, mode[1..], i - 1)
  {
    if i + |word| <= |mode| {
      var there, here := mode[i..i + |word|], mode[1..][i - 1..i - 1 + |word|];
      assert |there| == |here| && forall k :: 0 <= k < |there| ==> there[k] == mode[i + k] == here[k];
      assert there == here;
    }
  }

  /** A name that starts with a slash stands for itself; another is put behind the directory, with
      exactly one slash between them if the directory has none at its end. */
  lemma JoinLaws(dir: Path, name: Path)
    ensures name != [] && name[0] == '/' ==> JoinPath(dir, name) == name
    ensures (name == [] || name[0] != '/') && (dir == [] || dir[|dir| - 1] == '/') ==> JoinPath(dir, name) == dir + name
    ensures (name == [] || name[0] != '/') && dir != [] && dir[|dir| - 1] != '/' ==>
      var joined := JoinPath(dir, name);
      |joined| == |dir| + 1 + |name| && dir < joined && joined[|dir|] == '/' && joined[|dir| + 1..] == name
  {
  }

  lemma ApplyStep(env: Env, log: seq<Line>, start: Pid -> Path, n: nat, pid: Pid, p: Process)
    requires n < |log| && log[n].pid == pid && IsStep(CallAt(env, log, n)) && UpTo(env, log, start, n, pid, p)
    ensures UpTo(env, log, start, n + 1, pid, Apply(env, p, CallAt(env, log, n)))
  {
    TestsAgree(CallAt(env, log, n));
    FilesStep(env, log, start, n, pid, false);
    FilesStep(env, log, start, n, pid, true);
  }

  lemma SkipStep(env: Env, log: seq<Line>, start: Pid -> Path, n: nat, pid: Pid, p: Process)
    requires n < |log| && (log[n].pid != pid || !IsStep(CallAt(env, log, n))) && UpTo(env, log, start, n, pid, p)
    ensures UpTo(env, log, start, n + 1, pid, p)
  {
    FilesStep(env, log, start, n, pid, false);
    FilesStep(env, log, start, n, pid, true);
  }

  lemma ApplyOneMore(env: Env, p: Process, bodies: seq<string>, body: string)
    ensures ApplyAll(env, p, bodies + [body]) == Apply(env, ApplyAll(env, p, bodies), env.parse(body))
  {
    assert (bodies + [body])[..|bodies|] == bodies;
  }

  lemma StepsGrow(env: Env, log: seq<Line>, n: nat, pid: Pid)
    requires n < |log|
    ensures StepsBefore(env, log, n + 1, pid) == StepsBefore(env, log, n, pid)
      + if log[n].pid == pid && IsStep(CallAt(env, log, n)) then [BodyAt(log, n)] else []
  {
  }

  /** One call more, done or stored and done at the end. */
  lemma ReplayStep(env: Env, log: seq<Line>, start: Pid -> Path, n: nat, pid: Pid, p: Process, bodies: seq<string>)
    requires n < |log| && UpTo(env, log, start, n, pid, ApplyAll(env, p, bodies))
    ensures UpTo(env, log, start, n + 1, pid,
                 ApplyAll(env, p, bodies + if log[n].pid == pid &&
                   IsStep(CallAt(env, log, n)) then [BodyAt(log, n)] else []))
  {
    if log[n].pid == pid && IsStep(CallAt(env, log, n)) {
      ApplyOneMore(env, p, bodies, BodyAt(log, n));
      ApplyStep(env, log, start, n, pid, ApplyAll(env, p, bodies));
    } else {
      assert bodies + [] == bodies;
      SkipStep(env, log, start, n, pid, ApplyAll(env, p, bodies));
    }
  }

  /** Replaying the delayed lines of a process, from the directory it starts in, has the
      effect of its calls taken in order. */
  lemma {:induction false} Replay(env: Env, log: seq<Line>, start: Pid -> Path, n: nat, pid: Pid, p: Process)
    requires n <= |log| && p.cwd == start(pid) && p.deps == {} && p.outputs == {}
    ensures UpTo(env, log, start, n, pid, ApplyAll(env, p, StepsBefore(env, log, n, pid)))
  {
    if n == 0 {
      assert ApplyAll(env, p, []) == p;
    } else {
      Replay(env, log, start, n - 1, pid, p);
      ReplayStep(env, log, start, n - 1, pid, p, StepsBefore(env, log, n - 1, pid));
      StepsGrow(env, log, n - 1, pid);
    }
  }

  lemma {:induction false} Undelayed(env: Env, p: Process, bodies: seq<string>)
    ensures var q := ApplyAll(env, p, bodies); q.delayed == p.delayed && q.delayedLines == p.delayedLines
  {
    if bodies != [] {
      Undelayed(env, p, bodies[..|bodies| - 1]);
    }
  }

  // ----- the state after `n` lines -----

  ghost predicate ActiveBefore(env: Env, log: seq<Line>, n: nat)
    requires n <= |log|
  {
    exists i :: 0 <= i < n && Active(env, log, i)
  }

  ghost predicate Idle(env: Env, log: seq<Line>, n: nat, pid: Pid)
    requires n <= |log|
  {
    forall i :: 0 <= i < n && Active(env, log, i) ==> log[i].pid != pid
  }

  ghost predicate DelayedOk(env: Env, log: seq<Line>, root: Pid, n: nat, pid: Pid, p: Process)
    requires n <= |log|
  {
    && p.delayed && pid != root && Birth(env, log, 0, pid) >= n
    && p.cwd == "." && p.deps == {} && p.outputs == {} && p.delayedLines == StepsBefore(env, log, n, pid)
  }

  /** What is said of the directory does not depend on processes that were cloned and never act. */
  ghost predicate LiveOk(env: Env, log: seq<Line>, root: Pid, start: Pid -> Path, n: nat, pid: Pid, p: Process)
    requires n <= |log|
  {
    && !p.delayed && p.delayedLines == [] && (pid == root || Birth(env, log, 0, pid) < n)
    && if Acts(env, log, pid) then UpTo(env, log, start, n, pid, p) else p.deps == {} && p.outputs == {}
  }

  ghost predicate ProcessOk(env: Env, log: seq<Line>, root: Pid, start: Pid -> Path, n: nat, pid: Pid, p: Process)
    requires n <= |log|
  {
    if p.delayed then DelayedOk(env, log, root, n, pid, p) else LiveOk(env, log, root, start, n, pid, p)
  }

  /** The interpreter has an entry for `pid` before line `n`. */
  ghost predicate Known(env: Env, log: seq<Line>, root: Pid, n: nat, pid: Pid)
    requires n <= |log|
  {
    || Rank(env, log, root, pid) <= n
    || exists i :: 0 <= i < n && log[i].pid == pid && IsStep(CallAt(env, log, i))
  }

  ghost predicate ProcessesOk(env: Env, log: seq<Line>, root: Pid, start: Pid -> Path, n: nat,
                              processes: map<Pid, Process>)
    requires n <= |log|
  {
    && (forall pid :: pid in processes ==>
         ProcessOk(env, log, root, start, n, pid, processes[pid]) && Known(env, log, root, n, pid))
    && (forall pid :: pid !in processes ==> Idle(env, log, n, pid) && Birth(env, log, 0, pid) >= n)
    && (ActiveBefore(env, log, n) <==> root in processes)
    && (root !in processes ==> |processes| == 0)
  }

  ghost predicate UnfinishedOk(log: seq<Line>, n: nat, unfinished: map<Pid, string>)
    requires n <= |log|
  {
    forall pid :: Begun(log, n, pid) ==> pid in unfinished && unfinished[pid] == log[LastLine(log, n, pid)].body
  }

  ghost predicate StateOk(env: Env, log: seq<Line>, root: Pid, start: Pid -> Path, n: nat, t: Trace)
    requires n <= |log|
  {
    && ProcessesOk(env, log, root, start, n, t.processes)
    && UnfinishedOk(log, n, t.unfinished)
    && t.status == LastStatus(env, log, n)
  }

  // ----- a process that the line does not concern -----

  lemma IdleSteps(env: Env, log: seq<Line>, start: Pid -> Path, n: nat, pid: Pid)
    requires n <= |log| && Idle(env, log, n, pid)
    ensures StepsBefore(env, log, n, pid) == [] && CwdFrom(env, log, start(pid), n, pid) == start(pid)
    ensures FilesBefore(env, log, start, n, pid, false) == {} && FilesBefore(env, log, start, n, pid, true) == {}
  {
    if n > 0 {
      IdleSteps(env, log, start, n - 1, pid);
      if log[n - 1].pid == pid {
        assert !Active(env, log, n - 1);
      }
    }
  }

  lemma Untouched(env: Env, log: seq<Line>, root: Pid, start: Pid -> Path, n: nat, pid: Pid, p: Process)
    requires n < |log| && ProcessOk(env, log, root, start, n, pid, p)
    requires log[n].pid != pid || !IsStep(CallAt(env, log, n))
    requires !Clones(env, log, n, pid)
    ensures ProcessOk(env, log, root, start, n + 1, pid, p)
  {
    if !p.delayed && Acts(env, log, pid) {
      SkipStep(env, log, start, n, pid, p);
    }
  }

  lemma StillUnborn(env: Env, log: seq<Line>, n: nat, pid: Pid)
    requires n < |log| && Birth(env, log, 0, pid) >= n && !Clones(env, log, n, pid)
    ensures Birth(env, log, 0, pid) >= n + 1
  {
  }

  /** The line may concern `pid` only. */
  ghost predicate Concerns(env: Env, log: seq<Line>, n: nat, pid: Pid)
    requires n < |log|
  {
    forall other :: other != pid ==>
      (log[n].pid != other || !IsStep(CallAt(env, log, n))) && !Clones(env, log, n, other)
  }

  lemma OtherKept(env: Env, log: seq<Line>, root: Pid, start: Pid -> Path, n: nat, pid: Pid, p: Process)
    requires n < |log| && ProcessOk(env, log, root, start, n, pid, p) && Known(env, log, root, n, pid)
    requires (log[n].pid != pid || !IsStep(CallAt(env, log, n))) && !Clones(env, log, n, pid)
    ensures ProcessOk(env, log, root, start, n + 1, pid, p) && Known(env, log, root, n + 1, pid)
  {
    Untouched(env, log, root, start, n, pid, p);
  }

  lemma OtherAbsent(env: Env, log: seq<Line>, n: nat, pid: Pid)
    requires n < |log| && Idle(env, log, n, pid) && Birth(env, log, 0, pid) >= n
    requires log[n].pid != pid && !Clones(env, log, n, pid)
    ensures Idle(env, log, n + 1, pid) && Birth(env, log, 0, pid) >= n + 1
  {
  }

  lemma OthersUntouched(env: Env, log: seq<Line>, root: Pid, start: Pid -> Path, n: nat, processes: map<Pid, Process>,
                        pid: Pid, p: Process)
    requires n < |log| && ProcessesOk(env, log, root, start, n, processes) && Concerns(env, log, n, pid)
    requires log[n].pid == pid || log[n].pid in processes
    requires ProcessOk(env, log, root, start, n + 1, pid, p) && Known(env, log, root, n + 1, pid)
    requires Active(env, log, n) && (root in processes || pid == root)
    ensures ProcessesOk(env, log, root, start, n + 1, processes[pid := p])
  {
    var processes' := processes[pid := p];
    forall other | other in processes'
      ensures ProcessOk(env, log, root, start, n + 1, other, processes'[other]) && Known(env, log, root, n + 1, other)
    {
      if other == pid {
        assert processes'[other] == p;
      } else {
        assert other in processes && processes'[other] == processes[other];
        OtherKept(env, log, root, start, n, other, processes[other]);
      }
    }
    forall other | other !in processes'
      ensures Idle(env, log, n + 1, other) && Birth(env, log, 0, other) >= n + 1
    {
      OtherAbsent(env, log, n, other);
    }
    assert ActiveBefore(env, log, n + 1);
  }

  // ----- file calls and changes of directory -----

  /** The entry the interpreter works on, made when the process is new. */
  function Entry(processes: map<Pid, Process>, pid: Pid, c: Call): Process {
    if pid in processes then processes[pid]
    else if c.Execve? && |processes| == 0 then NEW_PROCESS
    else DELAYED_PROCESS
  }

  function Stepped(env: Env, p: Process, body: string): Process {
    if p.delayed then p.(delayedLines := p.delayedLines + [body]) else Apply(env, p, env.parse(body))
  }

  lemma StepShape(env: Env, t: Trace, pid: Pid, body: string)
    requires IsStep(env.parse(body))
    ensures StepBody(env, t, pid, body)
      == Done(t.(processes := t.processes[pid := Stepped(env, Entry(t.processes, pid, env.parse(body)), body)]))
  {
  }

  lemma EntryOk(env: Env, log: seq<Line>, root: Pid, start: Pid -> Path, n: nat, processes: map<Pid, Process>)
    requires n < |log| && WellFormed(env, log, root) && ProcessesOk(env, log, root, start, n, processes)
    requires IsStep(CallAt(env, log, n)) && IsSeen(env, log, root, start)
    ensures ProcessOk(env, log, root, start, n, log[n].pid, Entry(processes, log[n].pid, CallAt(env, log, n)))
  {
    var pid := log[n].pid;
    if pid in processes {
      EntryAt(env, log, root, start, n, processes, pid);
    } else {
      FirstCall(env, log, root, start, n, processes);
      NewEntryOk(env, log, root, start, n, pid);
      NewEntryFits(env, log, root, start, n, pid, Entry(processes, pid, CallAt(env, log, n)));
    }
  }

  lemma NewEntryFits(env: Env, log: seq<Line>, root: Pid, start: Pid -> Path, n: nat, pid: Pid, p: Process)
    requires n <= |log|
    requires pid == root ==> p == NEW_PROCESS && LiveOk(env, log, root, start, n, pid, NEW_PROCESS)
    requires pid != root ==> p == DELAYED_PROCESS && DelayedOk(env, log, root, n, pid, DELAYED_PROCESS)
    ensures ProcessOk(env, log, root, start, n, pid, p)
  {
  }

  lemma NewEntryOk(env: Env, log: seq<Line>, root: Pid, start: Pid -> Path, n: nat, pid: Pid)
    requires n <= |log| && Idle(env, log, n, pid) && Birth(env, log, 0, pid) >= n
    requires IsSeen(env, log, root, start)
    ensures pid == root ==> LiveOk(env, log, root, start, n, pid, NEW_PROCESS)
    ensures pid != root ==> DelayedOk(env, log, root, n, pid, DELAYED_PROCESS)
  {
    IdleSteps(env, log, start, n, pid);
    assert start(root) == SeenStart(env, log, root, root) == ".";
  }

  lemma AppliedOk(env: Env, log: seq<Line>, root: Pid, start: Pid -> Path, n: nat, pid: Pid, p: Process)
    requires n < |log| && log[n].pid == pid && IsStep(CallAt(env, log, n))
    requires LiveOk(env, log, root, start, n, pid, p)
    ensures LiveOk(env, log, root, start, n + 1, pid, Apply(env, p, CallAt(env, log, n)))
  {
    assert Active(env, log, n) && Acts(env, log, pid);
    ApplyStep(env, log, start, n, pid, p);
  }

  lemma StoredOk(env: Env, log: seq<Line>, root: Pid, n: nat, pid: Pid, p: Process)
    requires n < |log| && log[n].pid == pid && IsStep(CallAt(env, log, n)) && DelayedOk(env, log, root, n, pid, p)
    ensures DelayedOk(env, log, root, n + 1, pid, p.(delayedLines := p.delayedLines + [BodyAt(log, n)]))
  {
    assert !Clones(env, log, n, pid);
  }

  lemma SteppedOk(env: Env, log: seq<Line>, root: Pid, start: Pid -> Path, n: nat, pid: Pid, p: Process)
    requires n < |log| && log[n].pid == pid && IsStep(CallAt(env, log, n))
    requires ProcessOk(env, log, root, start, n, pid, p)
    ensures ProcessOk(env, log, root, start, n + 1, pid, Stepped(env, p, BodyAt(log, n)))
  {
    if p.delayed {
      StoredOk(env, log, root, n, pid, p);
    } else {
      AppliedOk(env, log, root, start, n, pid, p);
    }
  }

  lemma StepLineOk(env: Env, log: seq<Line>, root: Pid, start: Pid -> Path, n: nat, processes: map<Pid, Process>)
    requires n < |log| && WellFormed(env, log, root) && ProcessesOk(env, log, root, start, n, processes)
    requires IsStep(CallAt(env, log, n)) && IsSeen(env, log, root, start)
    ensures var pid := log[n].pid;
      var p := Stepped(env, Entry(processes, pid, CallAt(env, log, n)), BodyAt(log, n));
      ProcessesOk(env, log, root, start, n + 1, processes[pid := p])
  {
    var pid := log[n].pid;
    var p := Entry(processes, pid, CallAt(env, log, n));
    EntryOk(env, log, root, start, n, processes);
    SteppedOk(env, log, root, start, n, pid, p);
    FirstCall(env, log, root, start, n, processes);
    OthersUntouched(env, log, root, start, n, processes, pid, Stepped(env, p, BodyAt(log, n)));
  }

  /** When no process is known yet, the line is the root's `execve`; otherwise the root is known. */
  lemma FirstCall(env: Env, log: seq<Line>, root: Pid, start: Pid -> Path, n: nat, processes: map<Pid, Process>)
    requires n < |log| && WellFormed(env, log, root) && ProcessesOk(env, log, root, start, n, processes) &&
      Active(env, log, n)
    ensures root !in processes ==> log[n].pid == root && CallAt(env, log, n).Execve? && |processes| == 0
  {
    if root !in processes {
      NoneBefore(env, log, root, n);
    }
  }

  lemma NoneBefore(env: Env, log: seq<Line>, root: Pid, n: nat)
    requires n < |log| && RootFirst(env, log, root) && Active(env, log, n) && !ActiveBefore(env, log, n)
    ensures log[n].pid == root && CallAt(env, log, n).Execve?
  {
    assert forall j :: 0 <= j < n ==> !Active(env, log, j);
  }

  // ----- clones -----

  /** The child's entry once its clone line is complete. */
  function Cloned(env: Env, processes: map<Pid, Process>, pid: Pid, child: Pid): Process
    requires pid in processes
  {
    var cwd := processes[pid].cwd;
    if child !in processes then NEW_PROCESS.(cwd := cwd)
    else
      var p := processes[child];
      ApplyAll(env, p.(cwd := cwd, delayed := false), p.delayedLines).(delayedLines := [])
  }

  lemma CloneShape(env: Env, t: Trace, pid: Pid, body: string, child: Pid)
    requires env.parse(body) == Clone(child) && pid in t.processes
    ensures StepBody(env, t, pid, body) ==
      Done(t.(processes := t.processes[child := Cloned(env, t.processes, pid, child)]))
  {
  }

  lemma CloneLineOk(env: Env, log: seq<Line>, root: Pid, start: Pid -> Path, n: nat, processes: map<Pid, Process>,
                    child: Pid)
    requires n < |log| && WellFormed(env, log, root) && ProcessesOk(env, log, root, start, n, processes)
    requires CallAt(env, log, n) == Clone(child) && !Unknown(env, log, root, n) && IsSeen(env, log, root, start)
    ensures log[n].pid in processes && ProcessesOk(env, log, root, start, n + 1,
                                                   processes[child := Cloned(env, processes, log[n].pid, child)])
  {
    var pid := log[n].pid;
    FirstCall(env, log, root, start, n, processes);
    ParentKnown(env, log, root, start, n, processes);
    NotRoot(env, log, root, n, child);
    var cwd := processes[pid].cwd;
    if child !in processes {
      ChildBorn(env, log, root, start, n, child);
      IdleSteps(env, log, start, n, child);
      BornClean(env, log, root, start, n, child, cwd);
    } else {
      ChildReplayed(env, log, root, start, n, child, processes[child], cwd);
    }
    OthersUntouched(env, log, root, start, n, processes, child, Cloned(env, processes, pid, child));
  }

  lemma NotRoot(env: Env, log: seq<Line>, root: Pid, n: nat, child: Pid)
    requires n < |log| && WellFormed(env, log, root) && CallAt(env, log, n) == Clone(child)
    ensures child != root && Concerns(env, log, n, child)
  {
    assert Clones(env, log, n, child);
  }

  lemma AbsentIsUnknown(env: Env, log: seq<Line>, root: Pid, start: Pid -> Path, n: nat, processes: map<Pid, Process>)
    requires n < |log| && ProcessesOk(env, log, root, start, n, processes)
    requires CallAt(env, log, n).Clone? && log[n].pid !in processes && root in processes
    ensures Unknown(env, log, root, n)
  {
    forall j | 0 <= j < n && log[j].pid == log[n].pid ensures !IsStep(CallAt(env, log, j)) {
      assert !Active(env, log, j);
    }
  }

  lemma SeenCwdOf(env: Env, log: seq<Line>, root: Pid, start: Pid -> Path, n: nat, pid: Pid, p: Process)
    requires n <= |log| && ProcessOk(env, log, root, start, n, pid, p) && Acts(env, log, pid)
    ensures p.cwd == SeenCwd(env, log, root, start, n, pid)
  {
  }

  lemma EntryAt(env: Env, log: seq<Line>, root: Pid, start: Pid -> Path, n: nat, processes: map<Pid, Process>, pid: Pid)
    requires n <= |log| && ProcessesOk(env, log, root, start, n, processes) && pid in processes
    ensures ProcessOk(env, log, root, start, n, pid, processes[pid])
  {
  }

  lemma ParentKnown(env: Env, log: seq<Line>, root: Pid, start: Pid -> Path, n: nat, processes: map<Pid, Process>)
    requires n < |log| && ProcessesOk(env, log, root, start, n, processes)
    requires CallAt(env, log, n).Clone? && !Unknown(env, log, root, n) && root in processes
    ensures var pid := log[n].pid;
      pid in processes && processes[pid].cwd == SeenCwd(env, log, root, start, n, pid)
  {
    var pid := log[n].pid;
    assert Active(env, log, n) && Acts(env, log, pid);
    if pid !in processes {
      AbsentIsUnknown(env, log, root, start, n, processes);
    } else {
      EntryAt(env, log, root, start, n, processes, pid);
      SeenCwdOf(env, log, root, start, n, pid, processes[pid]);
    }
  }

  /** A child that acts is cloned here for the first and only time, so it starts in the
      directory its parent is seen in. */
  lemma ChildBorn(env: Env, log: seq<Line>, root: Pid, start: Pid -> Path, n: nat, child: Pid)
    requires n < |log| && WellFormed(env, log, root) && CallAt(env, log, n) == Clone(child) && child != root
    requires IsSeen(env, log, root, start)
    ensures Rank(env, log, root, child) <= n + 1
    ensures Acts(env, log, child) ==>
      Birth(env, log, 0, child) == n && start(child) == SeenCwd(env, log, root, start, n, log[n].pid)
  {
    assert Clones(env, log, n, child);
    if Acts(env, log, child) {
      var i :| 0 <= i < |log| && Active(env, log, i) && log[i].pid == child;
      var b := Birth(env, log, 0, child);
      assert Birth(env, log, b + 1, child) == |log|;
      assert start(child) == SeenStart(env, log, root, child);
    }
  }

  lemma BornClean(env: Env, log: seq<Line>, root: Pid, start: Pid -> Path, n: nat, child: Pid, cwd: Path)
    requires n < |log| && WellFormed(env, log, root) && CallAt(env, log, n) == Clone(child) && child != root
    requires Birth(env, log, 0, child) <= n && Idle(env, log, n, child)
    requires Acts(env, log, child) ==> cwd == CwdFrom(env, log, start(child), n, child)
    ensures ProcessOk(env, log, root, start, n + 1, child, NEW_PROCESS.(cwd := cwd))
  {
    IdleSteps(env, log, start, n, child);
    FilesStep(env, log, start, n, child, false);
    FilesStep(env, log, start, n, child, true);
  }

  lemma ReplayedOk(env: Env, log: seq<Line>, root: Pid, start: Pid -> Path, n: nat, child: Pid, p: Process)
    requires n < |log| && DelayedOk(env, log, root, n, child, p) && Birth(env, log, 0, child) == n
    requires CallAt(env, log, n).Clone? && Acts(env, log, child)
    ensures LiveOk(env, log, root, start, n + 1, child,
                   ApplyAll(env, p.(cwd := start(child), delayed := false), p.delayedLines).(delayedLines := []))
  {
    var q := p.(cwd := start(child), delayed := false);
    Undelayed(env, q, p.delayedLines);
    Replay(env, log, start, n, child, q);
    SkipStep(env, log, start, n, child, ApplyAll(env, q, p.delayedLines));
  }

  /** A process that was cloned, perhaps more than once, and never acts. */
  lemma ReplayedIdle(env: Env, log: seq<Line>, root: Pid, start: Pid -> Path, n: nat, child: Pid, p: Process, cwd: Path)
    requires n < |log| && ProcessOk(env, log, root, start, n, child, p) && !Acts(env, log, child) &&
      Birth(env, log, 0, child) <= n
    ensures LiveOk(env, log, root, start, n + 1, child,
                   ApplyAll(env, p.(cwd := cwd, delayed := false), p.delayedLines).(delayedLines := []))
  {
    NoSteps(env, log, n, child);
    assert p.delayedLines == [];
    assert ApplyAll(env, p.(cwd := cwd, delayed := false), []) == p.(cwd := cwd, delayed := false);
  }

  lemma ChildReplayed(env: Env, log: seq<Line>, root: Pid, start: Pid -> Path, n: nat, child: Pid, p: Process,
                      cwd: Path)
    requires n < |log| && WellFormed(env, log, root) && CallAt(env, log, n) == Clone(child) && child != root
    requires IsSeen(env, log, root, start) && cwd == SeenCwd(env, log, root, start, n, log[n].pid)
    requires ProcessOk(env, log, root, start, n, child, p)
    ensures LiveOk(env, log, root, start, n + 1, child,
                   ApplyAll(env, p.(cwd := cwd, delayed := false), p.delayedLines).(delayedLines := []))
  {
    ChildBorn(env, log, root, start, n, child);
    if Acts(env, log, child) {
      ReplayedOk(env, log, root, start, n, child, p);
    } else {
      ReplayedIdle(env, log, root, start, n, child, p, cwd);
    }
  }

  lemma NoSteps(env: Env, log: seq<Line>, n: nat, pid: Pid)
    requires n <= |log| && !Acts(env, log, pid)
    ensures StepsBefore(env, log, n, pid) == []
  {
    if n > 0 {
      NoSteps(env, log, n - 1, pid);
      assert log[n - 1].pid == pid ==> !Active(env, log, n - 1);
    }
  }

  // ----- lines that only change the status, or nothing -----

  lemma InactiveLineOk(env: Env, log: seq<Line>, root: Pid, start: Pid -> Path, n: nat, processes: map<Pid, Process>)
    requires n < |log| && ProcessesOk(env, log, root, start, n, processes) && !Active(env, log, n)
    ensures ProcessesOk(env, log, root, start, n + 1, processes)
  {
    forall pid | pid in processes ensures ProcessOk(env, log, root, start, n + 1, pid, processes[pid]) {
      Untouched(env, log, root, start, n, pid, processes[pid]);
    }
    forall pid | pid !in processes ensures Idle(env, log, n + 1, pid) && Birth(env, log, 0, pid) >= n + 1 {
      StillUnborn(env, log, n, pid);
    }
    assert ActiveBefore(env, log, n + 1) <==> ActiveBefore(env, log, n);
  }

  // ----- any line -----

  /** What the interpreter makes of a whole call: the entries are right, and the rest is as it should be. */
  ghost predicate BodyDone(env: Env, log: seq<Line>, root: Pid, start: Pid -> Path, n: nat, t: Trace, r: Attempt<Trace>)
    requires n < |log|
  {
    && r.Done? && ProcessesOk(env, log, root, start, n + 1, r.value.processes) && r.value.unfinished == t.unfinished
    && r.value.status == LastStatus(env, log, n + 1)
  }

  lemma StepBodyOk(env: Env, log: seq<Line>, root: Pid, start: Pid -> Path, n: nat, t: Trace)
    requires n < |log| && WellFormed(env, log, root) && ProcessesOk(env, log, root, start, n, t.processes)
    requires IsSeen(env, log, root, start) && t.status == LastStatus(env, log, n) && IsStep(CallAt(env, log, n))
    ensures BodyDone(env, log, root, start, n, t, StepBody(env, t, log[n].pid, BodyAt(log, n)))
  {
    StepLineOk(env, log, root, start, n, t.processes);
    StepShape(env, t, log[n].pid, BodyAt(log, n));
  }

  lemma CloneBodyOk(env: Env, log: seq<Line>, root: Pid, start: Pid -> Path, n: nat, t: Trace, child: Pid)
    requires n < |log| && WellFormed(env, log, root) && ProcessesOk(env, log, root, start, n, t.processes)
    requires IsSeen(env, log, root, start) && t.status == LastStatus(env, log, n)
    requires CallAt(env, log, n) == Clone(child) && !Unknown(env, log, root, n)
    ensures BodyDone(env, log, root, start, n, t, StepBody(env, t, log[n].pid, BodyAt(log, n)))
  {
    CloneLineOk(env, log, root, start, n, t.processes, child);
    CloneShape(env, t, log[n].pid, BodyAt(log, n), child);
  }

  lemma OtherBodyOk(env: Env, log: seq<Line>, root: Pid, start: Pid -> Path, n: nat, t: Trace)
    requires n < |log| && ProcessesOk(env, log, root, start, n, t.processes) && Completes(log, n)
    requires t.status == LastStatus(env, log, n) && !Active(env, log, n)
    ensures BodyDone(env, log, root, start, n, t, StepBody(env, t, log[n].pid, BodyAt(log, n)))
  {
    InactiveLineOk(env, log, root, start, n, t.processes);
  }

  lemma BodyOk(env: Env, log: seq<Line>, root: Pid, start: Pid -> Path, n: nat, t: Trace)
    requires n < |log| && WellFormed(env, log, root) && ProcessesOk(env, log, root, start, n, t.processes)
    requires !Unknown(env, log, root, n) && IsSeen(env, log, root, start) && Completes(log, n) &&
      t.status == LastStatus(env, log, n)
    ensures BodyDone(env, log, root, start, n, t, StepBody(env, t, log[n].pid, BodyAt(log, n)))
  {
    if IsStep(CallAt(env, log, n)) {
      StepBodyOk(env, log, root, start, n, t);
    } else if CallAt(env, log, n).Clone? {
      CloneBodyOk(env, log, root, start, n, t, CallAt(env, log, n).child);
    } else {
      OtherBodyOk(env, log, root, start, n, t);
    }
  }

  /** The interpreter's table of begun calls, one line later. */
  lemma UnfinishedStep(log: seq<Line>, n: nat, unfinished: map<Pid, string>)
    requires n < |log| && UnfinishedOk(log, n, unfinished)
    ensures log[n].Whole? ==> UnfinishedOk(log, n + 1, unfinished)
    ensures log[n].Unfinished? ==> UnfinishedOk(log, n + 1, unfinished[log[n].pid := log[n].body])
    ensures log[n].Resumed? ==> UnfinishedOk(log, n + 1, unfinished - {log[n].pid})
  {
  }

  lemma LineOk(env: Env, log: seq<Line>, root: Pid, start: Pid -> Path, n: nat, t: Trace)
    requires n < |log| && WellFormed(env, log, root) && StateOk(env, log, root, start, n, t)
    requires !Unknown(env, log, root, n) && IsSeen(env, log, root, start)
    ensures var r := StepLine(env, t, log[n]); r.Done? && StateOk(env, log, root, start, n + 1, r.value)
  {
    UnfinishedStep(log, n, t.unfinished);
    match log[n] {
      case Whole(pid, body) => BodyOk(env, log, root, start, n, t);
      case Unfinished(pid, body) => BeginLineOk(env, log, root, start, n, t);
      case Resumed(pid, body) => ResumeLineOk(env, log, root, start, n, t);
    }
  }

  lemma BeginLineOk(env: Env, log: seq<Line>, root: Pid, start: Pid -> Path, n: nat, t: Trace)
    requires n < |log| && log[n].Unfinished?
    requires ProcessesOk(env, log, root, start, n, t.processes) && t.status == LastStatus(env, log, n)
    ensures ProcessesOk(env, log, root, start, n + 1, t.processes) && t.status == LastStatus(env, log, n + 1)
  {
    InactiveLineOk(env, log, root, start, n, t.processes);
  }

  lemma ResumeLineOk(env: Env, log: seq<Line>, root: Pid, start: Pid -> Path, n: nat, t: Trace)
    requires n < |log| && WellFormed(env, log, root) && StateOk(env, log, root, start, n, t) && log[n].Resumed?
    requires !Unknown(env, log, root, n) && IsSeen(env, log, root, start)
    ensures var r := StepLine(env, t, log[n]);
      && r.Done? && ProcessesOk(env, log, root, start, n + 1, r.value.processes) &&
           r.value.status == LastStatus(env, log, n + 1)
      && r.value.unfinished == t.unfinished - {log[n].pid}
  {
    var pid := log[n].pid;
    assert Begun(log, n, pid);
    BodyOk(env, log, root, start, n, t.(unfinished := t.unfinished - {pid}));
  }

  lemma InterpretStep(env: Env, log: seq<Line>, n: nat)
    requires n < |log| && Interpret(env, log[..n]).Done?
    ensures Interpret(env, log[..n + 1]) == StepLine(env, Interpret(env, log[..n]).value, log[n])
  {
    assert log[..n + 1][..n] == log[..n];
  }

  /** Line by line: the tables hold what the log so far means, as long as no unknown process clones. */
  lemma {:induction false} PrefixOk(env: Env, log: seq<Line>, root: Pid, start: Pid -> Path, n: nat)
    requires n <= |log| && WellFormed(env, log, root) && NoneUnknown(env, log, root, n) && IsSeen(env, log, root, start)
    ensures Interpret(env, log[..n]).Done? && StateOk(env, log, root, start, n, Interpret(env, log[..n]).value)
  {
    if n == 0 {
      StartOk(env, log, root, start);
    } else {
      PrefixOk(env, log, root, start, n - 1);
      InterpretStep(env, log, n - 1);
      LineOk(env, log, root, start, n - 1, Interpret(env, log[..n - 1]).value);
    }
  }

  lemma StartOk(env: Env, log: seq<Line>, root: Pid, start: Pid -> Path)
    ensures StateOk(env, log, root, start, 0, START)
  {
  }

  // ----- when the interpreter raises -----

  lemma UnknownRaises(env: Env, log: seq<Line>, root: Pid, start: Pid -> Path, n: nat, t: Trace)
    requires n < |log| && Sequential(log) && StateOk(env, log, root, start, n, t) && Unknown(env, log, root, n)
    ensures StepLine(env, t, log[n]) == Raised(KeyError)
  {
    var pid := log[n].pid;
    assert !Known(env, log, root, n, pid);
    if log[n].Resumed? {
      assert Begun(log, n, pid);
    }
  }

  /** Once a line raises, the log as a whole does. */
  lemma {:induction false} RaisedPrefix(env: Env, log: seq<Line>, n: nat)
    requires n <= |log| && Interpret(env, log[..n]).Raised?
    ensures Interpret(env, log).Raised?
    decreases |log| - n
  {
    if n == |log| {
      assert log[..n] == log;
    } else {
      assert log[..n + 1][..n] == log[..n];
      RaisedPrefix(env, log, n + 1);
    }
  }

  lemma {:induction false} FirstUnknown(env: Env, log: seq<Line>, root: Pid, n: nat) returns (i: nat)
    requires n <= |log| && !NoneUnknown(env, log, root, n)
    ensures i < n && Unknown(env, log, root, i) && NoneUnknown(env, log, root, i)
  {
    if NoneUnknown(env, log, root, n - 1) {
      i := n - 1;
    } else {
      i := FirstUnknown(env, log, root, n - 1);
    }
  }

  /** The interpreter raises exactly when some process other than the root clones before the
      line of its own clone is complete, having made no file call and no change of directory. */
  lemma {:induction false} RaisesExact(env: Env, log: seq<Line>, root: Pid)
    requires WellFormed(env, log, root)
    ensures Interpret(env, log).Raised? <==> exists i :: 0 <= i < |log| && Unknown(env, log, root, i)
  {
    var start := pid => SeenStart(env, log, root, pid);
    if NoneUnknown(env, log, root, |log|) {
      PrefixOk(env, log, root, start, |log|);
      assert log[..|log|] == log;
    } else {
      var i := FirstUnknown(env, log, root, |log|);
      PrefixOk(env, log, root, start, i);
      InterpretStep(env, log, i);
      UnknownRaises(env, log, root, start, i, Interpret(env, log[..i]).value);
      RaisedPrefix(env, log, i + 1);
    }
  }

  // ----- what the interpreter collects -----

  lemma FilesAmong(env: Env, log: seq<Line>, start: Pid -> Path, pid: Pid, output: bool)
    ensures FilesBefore(env, log, start, |log|, pid, output) <= FilesFrom(env, log, start, output)
  {
  }

  lemma ProcessFiles(env: Env, log: seq<Line>, root: Pid, start: Pid -> Path, pid: Pid, p: Process)
    requires ProcessOk(env, log, root, start, |log|, pid, p)
    ensures p.deps <= FilesFrom(env, log, start, false) && p.outputs <= FilesFrom(env, log, start, true)
  {
    FilesAmong(env, log, start, pid, false);
    FilesAmong(env, log, start, pid, true);
  }

  lemma AllCollected(env: Env, log: seq<Line>, root: Pid, start: Pid -> Path, t: Trace, output: bool)
    requires StateOk(env, log, root, start, |log|, t) && WellFormed(env, log, root)
    ensures FilesFrom(env, log, start, output) <= if output then AllOutputs(t) else AllDeps(t)
  {
    forall name | name in FilesFrom(env, log, start, output)
      ensures name in if output then AllOutputs(t) else AllDeps(t)
    {
      var i :| 0 <= i < |log| && Records(env, log, start, i, output) && NameAt(env, log, start, i) == name;
      Collected(env, log, root, start, t, i, output);
    }
  }

  lemma CollectedAll(env: Env, log: seq<Line>, root: Pid, start: Pid -> Path, t: Trace)
    requires StateOk(env, log, root, start, |log|, t)
    requires WellFormed(env, log, root)
    ensures AllDeps(t) == FilesFrom(env, log, start, false) && AllOutputs(t) == FilesFrom(env, log, start, true)
  {
    AllCollected(env, log, root, start, t, false);
    AllCollected(env, log, root, start, t, true);
    NoneElse(env, log, root, start, t.processes);
    Within(t, FilesFrom(env, log, start, false), FilesFrom(env, log, start, true));
  }

  lemma NoneElse(env: Env, log: seq<Line>, root: Pid, start: Pid -> Path, processes: map<Pid, Process>)
    requires ProcessesOk(env, log, root, start, |log|, processes)
    ensures forall pid :: pid in processes ==>
      processes[pid].deps <= FilesFrom(env, log, start, false) &&
      processes[pid].outputs <= FilesFrom(env, log, start, true)
  {
    forall pid | pid in processes
      ensures processes[pid].deps <= FilesFrom(env, log, start, false) &&
        processes[pid].outputs <= FilesFrom(env, log, start, true)
    {
      OneCollected(env, log, root, start, processes, pid);
    }
  }

  lemma Within(t: Trace, deps: set<Path>, outputs: set<Path>)
    requires forall pid :: pid in t.processes ==> t.processes[pid].deps <= deps && t.processes[pid].outputs <= outputs
    ensures AllDeps(t) <= deps && AllOutputs(t) <= outputs
  {
  }

  lemma OneCollected(env: Env, log: seq<Line>, root: Pid, start: Pid -> Path, processes: map<Pid, Process>, pid: Pid)
    requires ProcessesOk(env, log, root, start, |log|, processes) && pid in processes
    ensures processes[pid].deps <= FilesFrom(env, log, start, false)
    ensures processes[pid].outputs <= FilesFrom(env, log, start, true)
  {
    EntryAt(env, log, root, start, |log|, processes, pid);
    ProcessFiles(env, log, root, start, pid, processes[pid]);
  }

  /** A recorded file is among those of the process that used it, which is not delayed any more. */
  lemma Collected(env: Env, log: seq<Line>, root: Pid, start: Pid -> Path, t: Trace, i: nat, output: bool)
    requires WellFormed(env, log, root) && StateOk(env, log, root, start, |log|, t)
    requires i < |log| && Records(env, log, start, i, output)
    ensures log[i].pid in t.processes
    ensures var p := t.processes[log[i].pid]; NameAt(env, log, start, i) in if output then p.outputs else p.deps
  {
    var pid := log[i].pid;
    assert Active(env, log, i);
    assert ProcessOk(env, log, root, start, |log|, pid, t.processes[pid]);
    assert NameAt(env, log, start, i) in FilesBefore(env, log, start, |log|, pid, output);
  }

  lemma SameFiles(env: Env, log: seq<Line>, start: Pid -> Path, start': Pid -> Path, output: bool)
    requires forall pid :: Acts(env, log, pid) ==> start(pid) == start'(pid)
    ensures FilesFrom(env, log, start, output) == FilesFrom(env, log, start', output)
  {
    forall i | 0 <= i < |log| && IsFile(CallAt(env, log, i))
      ensures NameAt(env, log, start, i) == NameAt(env, log, start', i)
    {
      assert Active(env, log, i);
    }
  }

  // ----- where the interpreter is right about the start of every process -----

  /** More generations than lead to the root make no difference. */
  lemma {:induction false} EnoughGenerations(env: Env, log: seq<Line>, root: Pid, d: nat, e: nat, pid: Pid)
    requires Descends(env, log, root, d, pid) && d <= e
    ensures StartAfter(env, log, root, d, pid) == StartAfter(env, log, root, e, pid)
  {
    if pid != root {
      EnoughGenerations(env, log, root, d - 1, e - 1, log[Birth(env, log, 0, pid)].pid);
    }
  }

  lemma StartOfChild(env: Env, log: seq<Line>, root: Pid, d: nat, pid: Pid)
    requires Descends(env, log, root, d, pid) && d <= |log| && pid != root
    ensures var b := Birth(env, log, 0, pid);
      StartCwd(env, log, root, pid) == CwdFrom(env, log, StartCwd(env, log, root, log[b].pid), b, log[b].pid)
  {
    EnoughGenerations(env, log, root, d, |log|, pid);
    EnoughGenerations(env, log, root, d - 1, |log|, log[Birth(env, log, 0, pid)].pid);
  }

  lemma {:induction false} SeenIsTrue(env: Env, log: seq<Line>, root: Pid, d: nat, pid: Pid)
    requires Descends(env, log, root, d, pid) && d <= |log| && Acts(env, log, pid)
    requires EarlyAtHome(env, log, root)
    ensures SeenStart(env, log, root, pid) == StartCwd(env, log, root, pid)
  {
    if pid != root {
      var b := Birth(env, log, 0, pid);
      StartOfChild(env, log, root, d, pid);
      assert CallAt(env, log, b) == Clone(pid) && Active(env, log, b);
      if Rank(env, log, root, log[b].pid) > b {
        assert Early(env, log, root, b);
      } else {
        SeenIsTrue(env, log, root, d - 1, log[b].pid);
      }
    }
  }

  /** The interpreter starts every process where it did start exactly when whoever clones
      early is still in the directory the command was started in. */
  lemma StartsExact(env: Env, log: seq<Line>, root: Pid)
    requires WellFormed(env, log, root) && Rooted(env, log, root)
    ensures EarlyAtHome(env, log, root) <==>
      forall pid :: Acts(env, log, pid) ==> SeenStart(env, log, root, pid) == StartCwd(env, log, root, pid)
  {
    if EarlyAtHome(env, log, root) {
      forall pid | Acts(env, log, pid) ensures SeenStart(env, log, root, pid) == StartCwd(env, log, root, pid) {
        SeenIsTrue(env, log, root, |log|, pid);
      }
    } else {
      var i :| 0 <= i < |log| && Early(env, log, root, i) && Acts(env, log, CallAt(env, log, i).child)
        && CwdFrom(env, log, StartCwd(env, log, root, log[i].pid), i, log[i].pid) != ".";
      var child := CallAt(env, log, i).child;
      NotRoot(env, log, root, i, child);
      ChildBorn(env, log, root, pid => SeenStart(env, log, root, pid), i, child);
      StartOfChild(env, log, root, |log|, child);
    }
  }

  /** Whatever the log, if nothing unknown clones, the interpreter collects the files of the
      processes each started where it takes them to start. */
  lemma CollectsSeen(env: Env, log: seq<Line>, root: Pid, start: Pid -> Path)
    requires WellFormed(env, log, root) && NoneUnknown(env, log, root, |log|) && IsSeen(env, log, root, start)
    ensures var r := Interpret(env, log);
      && r.Done? && r.value.status == LastStatus(env, log, |log|)
      && AllDeps(r.value) == FilesFrom(env, log, start, false)
      && AllOutputs(r.value) == FilesFrom(env, log, start, true)
  {
    PrefixOk(env, log, root, start, |log|);
    assert log[..|log|] == log;
    CollectedAll(env, log, root, start, Interpret(env, log).value);
  }

  /** Replay equals order: for every well-formed log, with calls split in two and the lines
      of a process arriving before the line of its clone, the interpreter raises exactly when
      an unknown process clones; and when it does not, and whoever clones early is at home,
      it collects exactly the files read and written, and the last status, of the processes
      each started in its parent's directory and its calls taken whole and in order. */
  lemma {:induction false} ReplayEqualsOrder(env: Env, log: seq<Line>, root: Pid)
    requires WellFormed(env, log, root)
    ensures var r := Interpret(env, log);
      && (r.Raised? <==> !NoneUnknown(env, log, root, |log|))
      && (r.Done? ==> r.value.status == LastStatus(env, log, |log|))
      && (r.Done? && Rooted(env, log, root) && EarlyAtHome(env, log, root) ==>
            && AllDeps(r.value) == Files(env, log, root, false)
            && AllOutputs(r.value) == Files(env, log, root, true))
  {
    RaisesExact(env, log, root);
    if NoneUnknown(env, log, root, |log|) {
      var seen := pid => SeenStart(env, log, root, pid);
      CollectsSeen(env, log, root, seen);
      if Rooted(env, log, root) && EarlyAtHome(env, log, root) {
        StartsExact(env, log, root);
        var start := Starts(env, log, root);
        SameFiles(env, log, seen, start, false);
        SameFiles(env, log, seen, start, true);
      }
    }
  }

  /** The call completed at `i` names the file. */
  ghost predicate Named(env: Env, log: seq<Line>, root: Pid, i: nat, name: Path) {
    i < |log| && IsFile(CallAt(env, log, i)) && name == NameAt(env, log, Starts(env, log, root), i)
  }

  /** So a name that is kept is an output exactly when some call of the log writes or makes that
      file, and a dependency exactly when some call names it and does neither. */
  lemma FilesExact(env: Env, log: seq<Line>, root: Pid, name: Path)
    requires WellFormed(env, log, root) && NoneUnknown(env, log, root, |log|)
    requires Rooted(env, log, root) && EarlyAtHome(env, log, root) && env.keep(name)
    ensures Interpret(env, log).Done?
    ensures name in AllOutputs(Interpret(env, log).value) <==>
      exists i :: Named(env, log, root, i, name) && var c := CallAt(env, log, i);
        || (c.Open? && (Occurs("O_WRONLY", c.mode) || Occurs("O_RDWR", c.mode)))
        || c.Creat? || c.Symlink? || c.Rename? || (c.Mkdir? && c.result == "0")
    ensures name in AllDeps(Interpret(env, log).value) <==>
      exists i :: Named(env, log, root, i, name) && var c := CallAt(env, log, i);
        || (c.Open? && !Occurs("O_WRONLY", c.mode) && !Occurs("O_RDWR", c.mode))
        || c.Stat? || c.Execve? || (c.Mkdir? && c.result != "0")
  {
    ReplayEqualsOrder(env, log, root);
    FileNamed(env, log, root, name, true);
    FileNamed(env, log, root, name, false);
    ModesAgree();
  }

  lemma FileNamed(env: Env, log: seq<Line>, root: Pid, name: Path, output: bool)
    requires env.keep(name)
    ensures name in Files(env, log, root, output) <==>
      exists i :: Named(env, log, root, i, name) && Uses(CallAt(env, log, i), output)
  {
    forall i | Named(env, log, root, i, name)
      ensures Records(env, log, Starts(env, log, root), i, output) <==> Uses(CallAt(env, log, i), output)
    {
    }
  }

  lemma ModesAgree()
    ensures forall c: Call :: c.Open? ==>
      (OpensToWrite(c) <==> Occurs("O_WRONLY", c.mode) || Occurs("O_RDWR", c.mode))
  {
    forall c: Call | c.Open? ensures OpensToWrite(c) <==> Occurs("O_WRONLY", c.mode) || Occurs("O_RDWR", c.mode) {
      WordsAgree("O_WRONLY", c.mode);
      WordsAgree("O_RDWR", c.mode);
    }
  }
}
