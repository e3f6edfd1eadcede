/** `ninja.run` (embedded/build/ninja.py): lend every idle permit of the shared limiter to ninja
    as its `-j` value, and take them back once ninja has finished. */
module Ninja {
  import opened Wrappers
  import opened Text
  import opened Paths
  import opened Build

  /** `n` copies of `op`; none when `n` is not positive. */
  function Repeat(op: PermitOp, n: int): (r: seq<PermitOp>)
    ensures |r| == if n <= 0 then 0 else n
    ensures forall i :: 0 <= i < |r| ==> r[i] == op
  {
    seq(if n <= 0 then 0 else n, _ => op)
  }

  /** The permit operations `run` performs when it finds `idle` free permits: drain them all, hand
      one back, let `run_command` take and return one, then return the rest. */
  function NinjaHistory(idle: nat): seq<PermitOp>
  {
    Repeat(Acquired, idle) + [Released] + [Acquired, Released] + Repeat(Released, idle - 1)
  }

  lemma {:induction false} OutstandingRepeat(op: PermitOp, n: int)
    ensures Outstanding(Repeat(op, n)) == (if n <= 0 then 0 else if op == Acquired then n else -n)
  {
    if n > 0 {
      var r := Repeat(op, n);
      assert r[..|r| - 1] == Repeat(op, n - 1);
      OutstandingRepeat(op, n - 1);
    }
  }

  /** `run` gives back every permit it takes exactly when it found one idle; with none idle it
      hands back one permit it never took. */
  lemma NinjaBalance(idle: nat)
    ensures Outstanding(NinjaHistory(idle)) == (if idle >= 1 then 0 else -1)
  {
    var a := Repeat(Acquired, idle);
    var b := Repeat(Released, idle - 1);
    OutstandingRepeat(Acquired, idle);
    OutstandingRepeat(Released, idle - 1);
    OutstandingAppend(a, [Released]);
    OutstandingAppend(a + [Released], [Acquired, Released]);
    OutstandingAppend(a + [Released] + [Acquired, Released], b);
    assert Outstanding([Released]) == -1;
    assert [Acquired, Released][..1] == [Acquired];
    assert Outstanding([Acquired, Released]) == 0;
  }

  lemma HistoryAssoc(h: seq<PermitOp>, a: seq<PermitOp>, b: seq<PermitOp>, c: seq<PermitOp>, d: seq<PermitOp>)
    ensures h + a + b + c + d == h + (a + b + c + d)
  {
  }

  /** At every point of `run`, with at least one idle permit on entry, the permits `run` holds
      lie between none and the number that were idle. */
  lemma NinjaReserveBounded(idle: nat, k: nat)
    requires idle >= 1
    requires k <= |NinjaHistory(idle)|
    ensures 0 <= Outstanding(NinjaHistory(idle)[..k]) <= idle
  {
    var h := NinjaHistory(idle);
    var a := Repeat(Acquired, idle);
    var mid := [Released, Acquired, Released];
    var b := Repeat(Released, idle - 1);
    assert h == a + mid + b;
    OutstandingRepeat(Acquired, idle);
    if k <= idle {
      assert h[..k] == Repeat(Acquired, k);
      OutstandingRepeat(Acquired, k);
      assert Outstanding(h[..k]) == k;
    } else if k <= idle + 3 {
      PrefixOfConcat(a, mid + b, k);
      assert a + mid + b == a + (mid + b);
      assert (mid + b)[..k - idle] == mid[..k - idle];
      OutstandingAppend(a, mid[..k - idle]);
      OutstandingMid(k - idle);
      assert Outstanding(h[..k]) == Outstanding(a) + Outstanding(mid[..k - idle]);
    } else {
      var m := k - idle - 3;
      PrefixOfConcat(a + mid, b, k);
      assert b[..m] == Repeat(Released, m);
      OutstandingRepeat(Released, m);
      OutstandingAppend(a, mid);
      OutstandingAppend(a + mid, b[..m]);
      OutstandingMid(3);
      assert mid[..3] == mid;
      assert Outstanding(h[..k]) == idle - 1 - m;
    }
  }

  /** The balance along the hand-back, `run_command`'s take and its return. */
  lemma OutstandingMid(j: nat)
    requires j <= 3
    ensures Outstanding([Released, Acquired, Released][..j]) == (if j == 0 || j == 2 then 0 else -1)
  {
    var mid := [Released, Acquired, Released];
    assert mid[..1] == [Released] && [Released][..0] == [];
    assert mid[..2] == [Released, Acquired] && mid[..2][..1] == [Released];
    assert mid[..3] == mid && mid[..3][..2] == [Released, Acquired];
  }

  /** The first `k` elements of `x + y`, when `x` is among them. */
  lemma PrefixOfConcat<T>(x: seq<T>, y: seq<T>, k: nat)
    requires |x| <= k <= |x| + |y|
    ensures (x + y)[..k] == x + y[..k - |x|]
  {
  }

  /** With no idle permit on entry, the first thing `run` does to the limiter is to release a
      permit it does not hold. */
  lemma NinjaReleasesUnheldWhenNoneIdle()
    ensures NinjaHistory(0) == [Released, Acquired, Released]
    ensures Outstanding(NinjaHistory(0)[..1]) == -1
  {
    assert NinjaHistory(0)[..1] == [Released];
    assert [Released][..0] == [];
  }

  /** The first loop of `run`: take permits until the limiter is locked; returns how many. */
  method DrainIdle(sem: BoundedSemaphore) returns (taken: nat)
    requires sem.Valid()
    modifies sem
    ensures sem.Valid() && sem.value == 0
    ensures taken == old(sem.value)
    ensures sem.history == old(sem.history) + Repeat(Acquired, taken)
  {
    taken := 0;
    while !sem.Locked()
      invariant sem.Valid()
      invariant taken <= old(sem.value) && sem.value == old(sem.value) - taken
      invariant sem.history == old(sem.history) + Repeat(Acquired, taken)
      decreases sem.value
    {
      taken := taken + 1;
      sem.Acquire();
      assert Repeat(Acquired, taken) == Repeat(Acquired, taken - 1) + [Acquired];
    }
  }

  /** The `finally` loop of `run`: release `count` permits, none of which can exceed the bound. */
  method ReleaseLent(sem: BoundedSemaphore, count: int)
    requires sem.Valid()
    requires count <= 0 || sem.value + count <= sem.bound
    modifies sem
    ensures sem.Valid()
    ensures sem.value == old(sem.value) + (if count <= 0 then 0 else count)
    ensures sem.history == old(sem.history) + Repeat(Released, count)
  {
    var i := 0;
    while i < count
      invariant sem.Valid()
      invariant 0 <= i && (count <= 0 ==> i == 0) && (count > 0 ==> i <= count)
      invariant sem.value == old(sem.value) + i
      invariant sem.history == old(sem.history) + Repeat(Released, i)
    {
      var ok := sem.Release();
      assert ok;
      i := i + 1;
      assert Repeat(Released, i) == Repeat(Released, i - 1) + [Released];
    }
  }

  lemma NinjaShellLine(jobs: int, buildDir: Path)
    ensures Join(Texts([Word("ninja"), Word("-j"), Word(IntToString(jobs))], buildDir), " ")
            == "ninja -j " + IntToString(jobs)
  {
    var ts := Texts([Word("ninja"), Word("-j"), Word(IntToString(jobs))], buildDir);
    assert ts == ["ninja", "-j", IntToString(jobs)];
    assert ts[1..][1..] == [IntToString(jobs)];
  }

  /** `await run(build_dir)`: ninja runs in `buildDir` and finishes with `process`. Returns the
      `-j` value passed to ninja, and what `run_command` reported. */
  method Run(sem: BoundedSemaphore, buildDir: Path, callerDirectory: Path, cwd: Path,
             process: ProcessResult)
    returns (jobs: int, shellLine: string, events: seq<LogEvent>, outcome: Outcome)
    requires sem.Valid()
    modifies sem
    ensures sem.Valid()
    // with a bound of 0 there is nothing to drain and the hand-back raises ValueError
    ensures sem.bound == 0 ==>
              outcome == Raised(ValueError) && events == [] && sem.history == old(sem.history)
    ensures sem.bound > 0 ==>
              && jobs == old(sem.value)
              && shellLine == "ninja -j " + IntToString(old(sem.value))
              && sem.history == old(sem.history) + NinjaHistory(old(sem.value))
              && sem.value == (if old(sem.value) >= 1 then old(sem.value) else 1)
    ensures sem.bound > 0 ==>
              var rel := RelativeTo(buildDir, cwd);
              && (rel.None? ==> events == [] && outcome == Raised(ValueError))
              && (rel.Some? ==> events == Report(process, None, Label(rel.value, shellLine))
                                && (outcome == Completed <==> process.returnCode == 0)
                                && (process.returnCode != 0 ==> outcome == Raised(RuntimeError)))
  {
    ghost var h0 := sem.history;
    var taken := DrainIdle(sem);
    var extraParallel: int := taken;
    // one permit goes back for run_command to take
    var ok := sem.Release();
    if !ok {
      return 0, "", [], Raised(ValueError);
    }
    extraParallel := extraParallel - 1;
    jobs := extraParallel + 1;
    ghost var h1 := sem.history;
    assert h1 == h0 + Repeat(Acquired, taken) + [Released] && sem.value == 1;
    var command := new Token[3] [Word("ninja"), Word("-j"), Word(IntToString(jobs))];
    assert command[..] == [Word("ninja"), Word("-j"), Word(IntToString(jobs))];
    NinjaShellLine(jobs, buildDir);
    shellLine, events, outcome := RunCommand(sem, Tokens(command), None, callerDirectory, Some(buildDir), cwd, process);
    assert shellLine == "ninja -j " + IntToString(jobs);
    ghost var h2 := sem.history;
    assert h2 == h1 + [Acquired, Released] && sem.value == 1;
    // finally: hand back the permits lent to ninja, whether run_command succeeded or raised
    ReleaseLent(sem, extraParallel);
    assert sem.history == h2 + Repeat(Released, extraParallel);
    HistoryAssoc(h0, Repeat(Acquired, taken), [Released], [Acquired, Released], Repeat(Released, extraParallel));
  }

  /** The negotiation when one of four permits is in use: three are idle, ninja is told `-j 3`,
      and all four are free again once the other unit hands its permit back. */
  method FourJobsOneBusy() returns (jobs: int, freeAfter: int)
    ensures jobs == 3
    ensures freeAfter == 4
  {
    var sem := new BoundedSemaphore(4);
    sem.Acquire();  // the unit already running
    var line, events, outcome;
    jobs, line, events, outcome := Run(sem, Path(["build"]), Path(["src"]), Path([]), ProcessResult(0, "", ""));
    var ok := sem.Release();  // that unit finishes
    freeAfter := sem.value;
  }
}
