/** What a strace log means: each process starts in the directory its parent was in when it
    was cloned, and its calls take effect whole and in order. */
module StraceReference {
  import opened Strace

  // ----- reading a log as a list of whole calls -----

  /** Position of the last line of `pid` before position `n`, or -1. */
  function LastLine(log: seq<Line>, n: nat, pid: Pid): (k: int)
    requires n <= |log|
    ensures -1 <= k < n
    ensures k >= 0 ==> log[k].pid == pid
    ensures forall i :: k < i < n ==> log[i].pid != pid
  {
    if n == 0 then -1 else if log[n - 1].pid == pid then n - 1 else LastLine(log, n - 1, pid)
  }

  /** A call of `pid` was begun before position `n` and not resumed. */
  predicate Begun(log: seq<Line>, n: nat, pid: Pid)
    requires n <= |log|
  {
    var k := LastLine(log, n, pid);
    k >= 0 && log[k].Unfinished?
  }

  /** Processes are sequential: a resuming line follows the line of its process that began
      the call. (A call may also stay unfinished, as when its process is killed.) */
  predicate Sequential(log: seq<Line>) {
    forall n :: 0 <= n < |log| && log[n].Resumed? ==> Begun(log, n, log[n].pid)
  }

  predicate Completes(log: seq<Line>, i: nat)
    requires i < |log|
  {
    !log[i].Unfinished?
  }

  /** The whole text of the call completed at `i`. */
  function BodyAt(log: seq<Line>, i: nat): string
    requires i < |log|
  {
    if log[i].Resumed? && Begun(log, i, log[i].pid) then log[LastLine(log, i, log[i].pid)].body + log[i].body
      else log[i].body
  }

  function CallAt(env: Env, log: seq<Line>, i: nat): Call
    requires i < |log|
  {
    if Completes(log, i) then env.parse(BodyAt(log, i)) else Other
  }

  predicate IsStep(c: Call) {
    IsFile(c) || c.Chdir?
  }

  predicate Clones(env: Env, log: seq<Line>, i: nat, child: Pid) {
    i < |log| && CallAt(env, log, i) == Clone(child)
  }

  /** Position of the first clone that returned `pid`, or the length of the log. */
  function Birth(env: Env, log: seq<Line>, n: nat, pid: Pid): (k: nat)
    requires n <= |log|
    ensures n <= k <= |log|
    ensures k < |log| ==> Clones(env, log, k, pid)
    ensures forall i :: n <= i < k ==> !Clones(env, log, i, pid)
    decreases |log| - n
  {
    if n == |log| || Clones(env, log, n, pid) then n else Birth(env, log, n + 1, pid)
  }

  predicate Active(env: Env, log: seq<Line>, i: nat)
    requires i < |log|
  {
    IsStep(CallAt(env, log, i)) || CallAt(env, log, i).Clone?
  }

  ghost predicate Acts(env: Env, log: seq<Line>, pid: Pid) {
    exists i :: 0 <= i < |log| && Active(env, log, i) && log[i].pid == pid
  }

  // ----- the log of one traced command, whose first process is `root` -----

  /** The first call is the root's `execve`, and nothing clones the root. */
  ghost predicate RootFirst(env: Env, log: seq<Line>, root: Pid) {
    && (forall i :: 0 <= i < |log| && Active(env, log, i) && (forall j :: 0 <= j < i ==> !Active(env, log, j)) ==>
          log[i].pid == root && CallAt(env, log, i).Execve?)
    && (forall i :: 0 <= i < |log| ==> !Clones(env, log, i, root))
  }

  /** Every other process that acts was cloned, once; a `clone` that fails returns no process
      and may repeat. */
  ghost predicate ClonedOnce(env: Env, log: seq<Line>, root: Pid) {
    forall i :: 0 <= i < |log| && Active(env, log, i) && log[i].pid != root ==>
      var b := Birth(env, log, 0, log[i].pid);
      b < |log| && Birth(env, log, b + 1, log[i].pid) == |log|
  }

  ghost predicate WellFormed(env: Env, log: seq<Line>, root: Pid) {
    Sequential(log) && RootFirst(env, log, root) && ClonedOnce(env, log, root)
  }

  /** `d` clones or fewer lead from the root to `pid`. */
  predicate Descends(env: Env, log: seq<Line>, root: Pid, d: nat, pid: Pid) {
    || pid == root
    || (d > 0 && var b := Birth(env, log, 0, pid); b < |log| && Descends(env, log, root, d - 1, log[b].pid))
  }

  /** Every process that acts descends from the root. No line of descent is longer than the log. */
  ghost predicate Rooted(env: Env, log: seq<Line>, root: Pid) {
    forall pid :: Acts(env, log, pid) ==> Descends(env, log, root, |log|, pid)
  }

  // ----- directories -----

  /** The directory of `pid` when it makes the call completed at `n`, if it starts in `start`. */
  function CwdFrom(env: Env, log: seq<Line>, start: Path, n: nat, pid: Pid): Path
    requires n <= |log|
  {
    if n == 0 then start
    else
      var cwd := CwdFrom(env, log, start, n - 1, pid);
      var c := CallAt(env, log, n - 1);
      if log[n - 1].pid == pid && c.Chdir? then JoinPath(cwd, c.cwd) else cwd
  }

  /** The directory that a process `d` clones away from the root starts in: the one its
      parent is in. */
  function StartAfter(env: Env, log: seq<Line>, root: Pid, d: nat, pid: Pid): Path {
    var b := Birth(env, log, 0, pid);
    if pid == root || d == 0 || b == |log| then "."
    else CwdFrom(env, log, StartAfter(env, log, root, d - 1, log[b].pid), b, log[b].pid)
  }

  function StartCwd(env: Env, log: seq<Line>, root: Pid, pid: Pid): Path {
    StartAfter(env, log, root, |log|, pid)
  }

  function Starts(env: Env, log: seq<Line>, root: Pid): Pid -> Path {
    pid => StartCwd(env, log, root, pid)
  }

  // ----- dependencies and outputs, given where each process starts -----

  /** The word stands somewhere in the mode. */
  predicate HasWord(mode: string, word: string) {
    word <= mode || (mode != [] && HasWord(mode[1..], word))
  }

  predicate OpensToWrite(c: Call) {
    c.Open? && (HasWord(c.mode, "O_WRONLY") || HasWord(c.mode, "O_RDWR"))
  }

  /** The call writes its file, makes it, or makes its directory. */
  predicate Writes(c: Call) {
    OpensToWrite(c) || c.Creat? || c.Symlink? || c.Rename? || (c.Mkdir? && c.result == "0")
  }

  /** The call names a file and does none of that. */
  predicate Reads(c: Call) {
    (c.Open? && !OpensToWrite(c)) || c.Stat? || c.Execve? || (c.Mkdir? && c.result != "0")
  }

  predicate Uses(c: Call, output: bool) {
    if output then Writes(c) else Reads(c)
  }

  /** The name recorded for the file call completed at `i`. */
  function NameAt(env: Env, log: seq<Line>, start: Pid -> Path, i: nat): Path
    requires i < |log| && IsFile(CallAt(env, log, i))
  {
    var name, dir := CallAt(env, log, i).name, CwdFrom(env, log, start(log[i].pid), i, log[i].pid);
    env.normalise(if dir == "." then name else JoinPath(dir, name))
  }

  predicate Records(env: Env, log: seq<Line>, start: Pid -> Path, i: nat, output: bool)
    requires i < |log|
  {
    var c := CallAt(env, log, i);
    Uses(c, output) && env.keep(NameAt(env, log, start, i))
  }

  function FilesFrom(env: Env, log: seq<Line>, start: Pid -> Path, output: bool): set<Path> {
    set i | 0 <= i < |log| && Records(env, log, start, i, output) :: NameAt(env, log, start, i)
  }

  /** The files read (`output` false) or written by the traced command. */
  function Files(env: Env, log: seq<Line>, root: Pid, output: bool): set<Path> {
    FilesFrom(env, log, Starts(env, log, root), output)
  }

  /** The status of the last exit in the log. */
  function LastStatus(env: Env, log: seq<Line>, n: nat): int
    requires n <= |log|
  {
    if n == 0 then 0
    else match CallAt(env, log, n - 1)
      case ExitGroup(status) => status
      case _ => LastStatus(env, log, n - 1)
  }

  // ----- a process that clones before the line of its own clone is complete -----

  predicate Early(env: Env, log: seq<Line>, root: Pid, i: nat)
    requires i < |log|
  {
    CallAt(env, log, i).Clone? && log[i].pid != root && Birth(env, log, 0, log[i].pid) >= i
  }

  /** It has made no file call and no change of directory either. */
  ghost predicate Unknown(env: Env, log: seq<Line>, root: Pid, i: nat)
    requires i < |log|
  {
    Early(env, log, root, i) && forall j :: 0 <= j < i && log[j].pid == log[i].pid ==> !IsStep(CallAt(env, log, j))
  }

  ghost predicate NoneUnknown(env: Env, log: seq<Line>, root: Pid, n: nat)
    requires n <= |log|
  {
    forall i :: 0 <= i < n ==> !Unknown(env, log, root, i)
  }

  /** Whoever clones early a process that acts is in the directory the command was started in. */
  ghost predicate EarlyAtHome(env: Env, log: seq<Line>, root: Pid) {
    forall i :: 0 <= i < |log| && Early(env, log, root, i) && Acts(env, log, CallAt(env, log, i).child) ==>
      CwdFrom(env, log, StartCwd(env, log, root, log[i].pid), i, log[i].pid) == "."
  }
}
