/** The shared job limiter and `run_command` (embedded/build/__init__.py).

    The limiter is an `asyncio.BoundedSemaphore` created by `init`. Here it is a class whose
    methods run one after another: a single sequential trace, with no interleaving of tasks.
    Besides the counter it keeps, as ghost state, the history of permits taken and handed back,
    so that "permits are conserved" can be stated and checked. */
module Build {
  import opened Wrappers
  import opened Text
  import opened Paths

  // ---------------------------------------------------------------- the permit counter

  datatype PermitOp = Acquired | Released

  /** Permits taken and not yet handed back over a history: acquisitions minus releases. */
  ghost function Outstanding(h: seq<PermitOp>): int
  {
    if h == [] then 0
    else Outstanding(h[..|h| - 1]) + (if h[|h| - 1] == Acquired then 1 else -1)
  }

  lemma {:induction false} OutstandingAppend(a: seq<PermitOp>, b: seq<PermitOp>)
    ensures Outstanding(a + b) == Outstanding(a) + Outstanding(b)
    decreases |b|
  {
    if b == [] {
      assert a + b == a;
    } else {
      assert (a + b)[..|a + b| - 1] == a + b[..|b| - 1];
      OutstandingAppend(a, b[..|b| - 1]);
    }
  }

  /** `asyncio.BoundedSemaphore(bound)` as used by one task at a time. */
  class BoundedSemaphore {
    /** The number of free permits. */
    var value: int
    /** The initial, and largest, number of free permits. */
    const bound: int
    /** Every successful acquire and release, in order. */
    ghost var history: seq<PermitOp>

    /** The counter stays within [0, bound], and the permits out on loan are exactly those that
        the history took and did not give back. */
    ghost predicate Valid()
      reads this
    {
      0 <= value <= bound && value + Outstanding(history) == bound
    }

    constructor (jobCount: nat)
      ensures Valid()
      ensures value == jobCount && bound == jobCount && history == []
    {
      value := jobCount;
      bound := jobCount;
      history := [];
    }

    /** `locked()`: no permit is free (with one task, nobody is ever waiting). */
    predicate Locked()
      reads this
    {
      value == 0
    }

    /** `await acquire()` when a permit is free. */
    method Acquire()
      requires Valid() && value > 0
      modifies this
      ensures Valid()
      ensures value == old(value) - 1
      ensures history == old(history) + [Acquired]
    {
      value := value - 1;
      history := history + [Acquired];
      assert history[..|history| - 1] == old(history);
    }

    /** `release()`: BoundedSemaphore raises ValueError instead of going above its bound. */
    method Release() returns (ok: bool)
      requires Valid()
      modifies this
      ensures Valid()
      ensures ok <==> old(value) < bound
      ensures ok ==> value == old(value) + 1 && history == old(history) + [Released]
      ensures !ok ==> value == old(value) && history == old(history)
    {
      if value >= bound {
        return false;
      }
      value := value + 1;
      history := history + [Released];
      assert history[..|history| - 1] == old(history);
      return true;
    }
  }

  /** `init(job_count)`: the shared semaphore, full; null where asyncio raises ValueError. */
  method Init(jobCount: int := 1) returns (sem: BoundedSemaphore?)
    ensures jobCount < 0 <==> sem == null
    ensures sem != null ==> fresh(sem) && sem.Valid()
    ensures sem != null ==> sem.value == jobCount && sem.bound == jobCount && sem.history == []
  {
    if jobCount < 0 {
      return null;
    }
    sem := new BoundedSemaphore(jobCount);
  }

  // ---------------------------------------------------------------- the caller's directory

  const CallerDirectoryKey := "caller_directory"

  /** The keyword arguments of a decorated call that matter here: paths or None. */
  type Kwargs = map<string, Option<Path>>

  /** `capture_caller_directory`'s wrapper: fills in `caller_directory` with the directory of the
      calling file unless a non-None value was given. */
  method CaptureCallerDirectory(kwargs: Kwargs, callerFile: Path) returns (r: Kwargs)
    ensures CallerDirectoryKey in r && r[CallerDirectoryKey].Some?
    ensures CallerDirectoryKey in kwargs && kwargs[CallerDirectoryKey].Some? ==> r == kwargs
    ensures !(CallerDirectoryKey in kwargs && kwargs[CallerDirectoryKey].Some?) ==>
              r[CallerDirectoryKey] == Some(Parent(callerFile))
    ensures r.Keys == kwargs.Keys + {CallerDirectoryKey}
    ensures forall k <- kwargs.Keys :: k != CallerDirectoryKey ==> r[k] == kwargs[k]
  {
    r := kwargs;
    if CallerDirectoryKey !in r || r[CallerDirectoryKey].None? {
      r := r[CallerDirectoryKey := Some(Parent(callerFile))];
    }
  }

  // ---------------------------------------------------------------- command rendering

  /** One element of a command list: a string, or a path. */
  datatype Token = Word(text: string) | PathToken(path: Path)

  /** A command as `run_command` receives it: a shell line, or a list it rewrites in place. */
  datatype Command = Line(text: string) | Tokens(parts: array<Token>)

  /** `str(part)` after a path part has been made relative to the working directory. */
  function TokenText(t: Token, workingDirectory: Path): string
  {
    match t
    case Word(s) => s
    case PathToken(p) => RelStr(RelativeWalkUp(p, workingDirectory))
  }

  function Texts(ts: seq<Token>, workingDirectory: Path): (r: seq<string>)
    ensures |r| == |ts| && forall i :: 0 <= i < |ts| ==> r[i] == TokenText(ts[i], workingDirectory)
  {
    seq(|ts|, i requires 0 <= i < |ts| => TokenText(ts[i], workingDirectory))
  }

  /** The loop of `run_command` over a list command: every element becomes its string, in place,
      and the shell line is the elements joined by single spaces. */
  method RenderTokens(command: array<Token>, workingDirectory: Path) returns (line: string)
    modifies command
    ensures forall i :: 0 <= i < command.Length ==>
              command[i] == Word(TokenText(old(command[i]), workingDirectory))
    ensures line == Join(Texts(old(command[..]), workingDirectory), " ")
  {
    var texts: seq<string> := [];
    for i := 0 to command.Length
      invariant |texts| == i
      invariant forall k :: 0 <= k < i ==> command[k] == Word(TokenText(old(command[k]), workingDirectory))
      invariant forall k :: 0 <= k < i ==> texts[k] == TokenText(old(command[k]), workingDirectory)
      invariant forall k :: i <= k < command.Length ==> command[k] == old(command[k])
    {
      var part := command[i];
      var text := match part
        case Word(s) => s
        case PathToken(p) => RelStr(RelativeWalkUp(p, workingDirectory));
      command[i] := Word(text);
      texts := texts + [text];
    }
    assert texts == Texts(old(command[..]), workingDirectory);
    line := Join(texts, " ");
  }

  /** The shell line keeps every element, in order: splitting it on spaces gives the elements back
      when none of them contains a space. */
  lemma ShellLineKeepsTokens(ts: seq<Token>, workingDirectory: Path)
    requires |ts| >= 1
    requires forall i :: 0 <= i < |ts| ==> ' ' !in TokenText(ts[i], workingDirectory)
    ensures Split(Join(Texts(ts, workingDirectory), " "), ' ') == Texts(ts, workingDirectory)
  {
    SplitJoin(Texts(ts, workingDirectory), ' ');
  }

  // ---------------------------------------------------------------- outcome and log

  datatype Level = Debug | Info | Warning | Error

  datatype LogEvent = LogEvent(level: Level, message: string)

  /** What `communicate()` and `returncode` give back, the output already decoded. */
  datatype ProcessResult = ProcessResult(returnCode: int, stdout: string, stderr: string)

  /** `if description:`, where the empty string counts as no description. */
  predicate HasDescription(description: Option<string>)
  {
    description.Some? && description.value != ""
  }

  /** `"<dir>$ <command>"`. */
  function Label(relativeDirectory: seq<string>, line: string): string
  {
    RelStr(relativeDirectory) + "$ " + line
  }

  function Levels(events: seq<LogEvent>): (r: seq<Level>)
    ensures |r| == |events|
  {
    if events == [] then [] else [events[0].level] + Levels(events[1..])
  }

  /** The log calls after a process that exited with status 0. */
  function SuccessReport(description: Option<string>, commandLabel: string): (r: seq<LogEvent>)
    ensures Levels(r) == (if HasDescription(description) then [Info, Debug] else [Info])
    ensures r[0].message == (if HasDescription(description) then description.value else commandLabel)
    ensures r[|r| - 1].message == commandLabel
  {
    if HasDescription(description) then [LogEvent(Info, description.value), LogEvent(Debug, commandLabel)]
    else [LogEvent(Info, commandLabel)]
  }

  /** The log calls after a process that exited with any other status: stdout at info if it is
      non-empty, stderr at warning if it is non-empty, "No output" at warning when both are empty,
      and last the label at error. */
  function FailureReport(stdout: string, stderr: string, commandLabel: string): (r: seq<LogEvent>)
    ensures 2 <= |r| <= 3
    ensures Levels(r) == (if stdout != "" then [Info] else [])
                       + (if stderr != "" || stdout == "" then [Warning] else [])
                       + [Error]
    ensures stdout != "" ==> r[0].message == Strip(stdout)
    ensures |r| >= 2 && r[|r| - 2].level == Warning ==>
              r[|r| - 2].message == (if stderr != "" then Strip(stderr) else "No output")
    ensures r[|r| - 1] == LogEvent(Error, commandLabel)
  {
    var err := LogEvent(Warning, if stderr != "" then Strip(stderr) else "No output");
    var last := LogEvent(Error, commandLabel);
    assert Levels([last]) == [Error];
    assert Levels([err, last]) == [Warning, Error];
    if stdout == "" then
      [err, last]
    else
      var info := LogEvent(Info, Strip(stdout));
      if stderr == "" then
        assert Levels([info, last]) == [Info, Error];
        [info, last]
      else
        assert Levels([info, err, last]) == [Info] + Levels([err, last]);
        [info, err, last]
  }

  /** The log calls that follow a finished process. */
  function Report(p: ProcessResult, description: Option<string>, commandLabel: string): (r: seq<LogEvent>)
    ensures p.returnCode == 0 ==> r == SuccessReport(description, commandLabel)
    ensures p.returnCode != 0 ==> r == FailureReport(p.stdout, p.stderr, commandLabel)
  {
    if p.returnCode == 0 then SuccessReport(description, commandLabel)
    else FailureReport(p.stdout, p.stderr, commandLabel)
  }

  /** The working directory `run_command` uses: the given one, else the caller's. */
  function EffectiveDirectory(callerDirectory: Path, workingDirectory: Option<Path>): (wd: Path)
    ensures workingDirectory.Some? ==> wd == workingDirectory.value
    ensures workingDirectory.None? ==> wd == callerDirectory
  {
    if workingDirectory.Some? then workingDirectory.value else callerDirectory
  }

  function CommandFrame(command: Command): set<object>
  {
    if command.Tokens? then {command.parts} else {}
  }

  /** `run_command` on a process that finishes with `process`. It holds one permit while the
      process is created and hands it back before waiting for the process to end. The log events
      and the outcome follow; `cwd` is the directory the build was started in. */
  method RunCommand(sem: BoundedSemaphore, command: Command, description: Option<string>,
                    callerDirectory: Path, workingDirectory: Option<Path>, cwd: Path,
                    process: ProcessResult)
    returns (shellLine: string, events: seq<LogEvent>, outcome: Outcome)
    requires sem.Valid() && sem.value > 0
    modifies sem, CommandFrame(command)
    ensures sem.Valid() && sem.value == old(sem.value)
    ensures sem.history == old(sem.history) + [Acquired, Released]
    ensures command.Line? ==> shellLine == command.text
    ensures command.Tokens? ==>
              shellLine == Join(Texts(old(command.parts[..]), EffectiveDirectory(callerDirectory, workingDirectory)), " ")
    ensures command.Tokens? ==>
              forall i :: 0 <= i < command.parts.Length ==>
                command.parts[i] == Word(TokenText(old(command.parts[i]), EffectiveDirectory(callerDirectory, workingDirectory)))
    ensures RelativeTo(EffectiveDirectory(callerDirectory, workingDirectory), cwd).None? ==>
              events == [] && outcome == Raised(ValueError)
    ensures RelativeTo(EffectiveDirectory(callerDirectory, workingDirectory), cwd).Some? ==>
              var rel := RelativeTo(EffectiveDirectory(callerDirectory, workingDirectory), cwd).value;
              && events == Report(process, description, Label(rel, shellLine))
              && (outcome == Completed <==> process.returnCode == 0)
              && (outcome != Completed ==> outcome == Raised(RuntimeError))
  {
    var wd := if workingDirectory.None? then callerDirectory else workingDirectory.value;
    match command {
      case Line(s) =>
        shellLine := s;
      case Tokens(parts) =>
        shellLine := RenderTokens(parts, wd);
    }

    // async with shared_semaphore: create_subprocess_shell(shellLine, cwd=wd)
    sem.Acquire();
    var ok := sem.Release();
    assert ok;

    var rel := RelativeTo(wd, cwd);
    if rel.None? {
      return shellLine, [], Raised(ValueError);
    }
    var commandLabel := Label(rel.value, shellLine);
    events := Report(process, description, commandLabel);
    outcome := if process.returnCode == 0 then Completed else Raised(RuntimeError);
  }
}
