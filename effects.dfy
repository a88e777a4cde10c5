/** The observable effects of the restart-on-rebuild coordinator, recorded as an
    append-only trace, and the properties of such a trace: which child was
    spawned last, whether its termination has been requested since, and how
    often the host process was told to exit. */
module Effects {

  datatype Option<T> = None | Some(value: T)

  /** Identity of a child process spawned by the coordinator. */
  type Pid = nat

  /** A build diagnostic as the build engine reports it; only its text is kept. */
  datatype Message = Message(text: string)

  /** The host-process events on which the stop handler is installed:
      `exit`, `SIGINT` and `SIGHUP`. */
  datatype StopEvent = ExitEvent | SigInt | SigHup

  /** One effect of the coordinator on the outside world. The process
      operations are requests only: a `Kill` is not awaited, and nothing in
      the trace says when a child actually exits. */
  datatype Effect =
    | Kill(pid: Pid)                           // child.kill(), always SIGTERM
    | Spawn(pid: Pid, path: string)            // spawn('node', [path])
    | PipeOutput(pid: Pid)                     // child stdout/stderr piped to the host's
    | Exit(code: int)                          // process.exit(code)
    | CbRebuildStart                           // onRebuildStart()
    | CbRebuildEnd(ms: int)                    // onRebuildEnd(ms)
    | CbRebuildFailed(errors: seq<Message>, ms: int)  // onRebuildFailed(errors, ms)
    | CbServerStart                            // onServerStart()
    | CbServerClosed(exitCode: Option<int>)    // onServerClosed(code), code null when signalled

  // The trace properties are defined on the prefix t[..n] of a trace, by
  // recursion on n; the whole-trace versions take n == |t|.

  /** The process id of the last `Spawn` among the first `n` effects of `t`. */
  function LastSpawnedIn(t: seq<Effect>, n: nat): Option<Pid>
    requires n <= |t|
  {
    if n == 0 then None
    else if t[n - 1].Spawn? then Some(t[n - 1].pid)
    else LastSpawnedIn(t, n - 1)
  }

  /** Among the first `n` effects of `t`, a `Kill(pid)` follows the last `Spawn`. */
  predicate KilledSinceIn(t: seq<Effect>, n: nat, pid: Pid)
    requires n <= |t|
  {
    n > 0 && !t[n - 1].Spawn? && (t[n - 1] == Kill(pid) || KilledSinceIn(t, n - 1, pid))
  }

  /** Among the first `n` effects of `t`, no spawned child is still un-asked
      to terminate: nothing was spawned, or the last spawned child has had a
      `Kill` since. */
  predicate SettledIn(t: seq<Effect>, n: nat)
    requires n <= |t|
  {
    LastSpawnedIn(t, n).None? || KilledSinceIn(t, n, LastSpawnedIn(t, n).value)
  }

  /** Among the first `n` effects of `t`, every `Spawn` comes after a `Kill`
      of the previously spawned child, if one existed. */
  predicate KillPrecedesEverySpawnIn(t: seq<Effect>, n: nat)
    requires n <= |t|
  {
    n == 0 || (KillPrecedesEverySpawnIn(t, n - 1) && (t[n - 1].Spawn? ==> SettledIn(t, n - 1)))
  }

  /** The number of `Exit` effects among the first `n` effects of `t`. */
  function ExitCountIn(t: seq<Effect>, n: nat): nat
    requires n <= |t|
  {
    if n == 0 then 0 else ExitCountIn(t, n - 1) + (if t[n - 1].Exit? then 1 else 0)
  }

  function LastSpawned(t: seq<Effect>): Option<Pid> { LastSpawnedIn(t, |t|) }
  predicate Settled(t: seq<Effect>) { SettledIn(t, |t|) }
  predicate KillPrecedesEverySpawn(t: seq<Effect>) { KillPrecedesEverySpawnIn(t, |t|) }
  function ExitCount(t: seq<Effect>): nat { ExitCountIn(t, |t|) }

  /** No `Spawn` occurs at positions `j + 1 .. n - 1` of `t`. */
  predicate NoSpawnBetween(t: seq<Effect>, j: nat, n: nat)
    requires n <= |t|
  {
    forall k | j < k < n :: !t[k].Spawn?
  }

  /** The child `pid` was spawned somewhere in `t`. */
  predicate Spawned(t: seq<Effect>, pid: Pid)
  {
    exists i :: 0 <= i < |t| && t[i].Spawn? && t[i].pid == pid
  }

  /** Appending the parts of an effect list one after the other appends the whole. */
  lemma AppendAssoc(a: seq<Effect>, b: seq<Effect>, c: seq<Effect>)
    ensures a + b + c == a + (b + c)
  {
  }

  /** `LastSpawnedIn` agrees with its positional reading: `None` exactly when
      the prefix holds no `Spawn`, and otherwise the pid of the `Spawn` after
      which no other `Spawn` occurs. */
  lemma {:induction false} LastSpawnedIsLastSpawn(t: seq<Effect>, n: nat)
    requires n <= |t|
    ensures LastSpawnedIn(t, n).None? <==> forall k | 0 <= k < n :: !t[k].Spawn?
    ensures forall j | 0 <= j < n && t[j].Spawn? && NoSpawnBetween(t, j, n) :: LastSpawnedIn(t, n) == Some(t[j].pid)
  {
    if n > 0 {
      LastSpawnedIsLastSpawn(t, n - 1);
      if !t[n - 1].Spawn? {
        forall j | 0 <= j < n && t[j].Spawn? && NoSpawnBetween(t, j, n)
          ensures LastSpawnedIn(t, n) == Some(t[j].pid)
        {
          assert j < n - 1 && NoSpawnBetween(t, j, n - 1);
        }
      }
    }
  }

  /** `KilledSinceIn` agrees with its positional reading: some `Kill(pid)` in
      the prefix is followed by no `Spawn` in it. */
  lemma {:induction false} KilledSinceIsPositional(t: seq<Effect>, n: nat, pid: Pid)
    requires n <= |t|
    ensures KilledSinceIn(t, n, pid) <==>
            exists k :: 0 <= k < n && t[k] == Kill(pid) && NoSpawnBetween(t, k, n)
  {
    if n > 0 {
      KilledSinceIsPositional(t, n - 1, pid);
      if t[n - 1].Spawn? {
        forall k | 0 <= k < n && t[k] == Kill(pid)
          ensures !NoSpawnBetween(t, k, n)
        {
          assert k < n - 1;
        }
      } else if KilledSinceIn(t, n - 1, pid) {
        var k :| 0 <= k < n - 1 && t[k] == Kill(pid) && NoSpawnBetween(t, k, n - 1);
        assert NoSpawnBetween(t, k, n);
      } else if t[n - 1] == Kill(pid) {
        assert NoSpawnBetween(t, n - 1, n);
      }
    }
  }

  /** `KillPrecedesEverySpawnIn` agrees with its positional reading: the
      prefix before each `Spawn` is settled. */
  lemma {:induction false} KillPrecedesEverySpawnIsPositional(t: seq<Effect>, n: nat)
    requires n <= |t|
    ensures KillPrecedesEverySpawnIn(t, n) <==> forall i | 0 <= i < n && t[i].Spawn? :: SettledIn(t, i)
  {
    if n > 0 {
      KillPrecedesEverySpawnIsPositional(t, n - 1);
    }
  }

  /** An exit count of zero means no `Exit` at all. */
  lemma {:induction false} NoExitWhenCountZero(t: seq<Effect>, n: nat)
    requires n <= |t|
    ensures ExitCountIn(t, n) == 0 <==> forall k | 0 <= k < n :: !t[k].Exit?
  {
    if n > 0 {
      NoExitWhenCountZero(t, n - 1);
    }
  }

  /** Position `j` holds the last `Spawn` among the first `n` effects of `t`. */
  predicate LastSpawnAt(t: seq<Effect>, j: nat, n: nat)
    requires n <= |t|
  {
    j < n && t[j].Spawn? && NoSpawnBetween(t, j, n)
  }

  /** The child spawned at position `j` has a `Kill` among positions `j + 1 .. n - 1`. */
  predicate KilledAfter(t: seq<Effect>, j: nat, n: nat)
    requires j < n <= |t| && t[j].Spawn?
  {
    exists k :: j < k < n && t[k] == Kill(t[j].pid)
  }

  /** `SettledIn` agrees with its positional reading: after the last `Spawn`
      of the prefix, if any, some `Kill` of that child occurs in it. */
  lemma {:induction false} SettledIsPositional(t: seq<Effect>, n: nat)
    requires n <= |t|
    ensures SettledIn(t, n) <==> forall j | LastSpawnAt(t, j, n) :: KilledAfter(t, j, n)
  {
    if n == 0 {
    } else if t[n - 1].Spawn? {
      assert !KilledSinceIn(t, n, t[n - 1].pid);
      assert LastSpawnAt(t, n - 1, n) && !KilledAfter(t, n - 1, n);
    } else {
      SettledIsPositional(t, n - 1);
      assert LastSpawnedIn(t, n) == LastSpawnedIn(t, n - 1);
      forall i | LastSpawnAt(t, i, n)
        ensures LastSpawnAt(t, i, n - 1)
      {
      }
      var m := n - 1;
      if j :| LastSpawnAt(t, j, m) {
        LastSpawnedIsLastSpawn(t, n - 1);
        assert LastSpawnAt(t, j, n);
        forall i | LastSpawnAt(t, i, n)
          ensures i == j
        {
          assert !(i < j) && !(j < i);
        }
        KilledAfterStep(t, j, n);
      }
    }
  }

  /** One more effect that is not a `Spawn` extends `KilledAfter` exactly when
      it is a `Kill` of that child. */
  lemma KilledAfterStep(t: seq<Effect>, j: nat, n: nat)
    requires j < n - 1 && n <= |t| && t[j].Spawn?
    ensures KilledAfter(t, j, n) <==> KilledAfter(t, j, n - 1) || t[n - 1] == Kill(t[j].pid)
  {
    if KilledAfter(t, j, n) {
      var k :| j < k < n && t[k] == Kill(t[j].pid);
      if k < n - 1 {
        assert KilledAfter(t, j, n - 1);
      }
    }
    if t[n - 1] == Kill(t[j].pid) {
      assert j < n - 1 < n;
    }
  }

  /** `ExitCountIn` agrees with its positional reading: it is the number of
      positions of the prefix that hold an `Exit`. */
  lemma {:induction false} ExitCountIsPositional(t: seq<Effect>, n: nat)
    requires n <= |t|
    ensures ExitCountIn(t, n) == |set k | 0 <= k < n && t[k].Exit?|
  {
    if n > 0 {
      ExitCountIsPositional(t, n - 1);
      var before := set k | 0 <= k < n - 1 && t[k].Exit?;
      if t[n - 1].Exit? {
        assert (set k | 0 <= k < n && t[k].Exit?) == before + {n - 1};
      } else {
        assert (set k | 0 <= k < n && t[k].Exit?) == before;
      }
    }
  }

  /** An exit count of at most one means at most one position holds an `Exit`. */
  lemma {:induction false} AtMostOneExit(t: seq<Effect>, n: nat)
    requires n <= |t| && ExitCountIn(t, n) <= 1
    ensures forall i, j | 0 <= i < n && 0 <= j < n && t[i].Exit? && t[j].Exit? :: i == j
  {
    if n > 0 {
      AtMostOneExit(t, n - 1);
      NoExitWhenCountZero(t, n - 1);
    }
  }

  /** The trace properties of a prefix depend only on the effects in it. */
  lemma {:induction false} SamePrefix(t: seq<Effect>, s: seq<Effect>, n: nat)
    requires n <= |t| && n <= |s|
    requires forall k | 0 <= k < n :: t[k] == s[k]
    ensures LastSpawnedIn(t, n) == LastSpawnedIn(s, n)
    ensures forall pid :: KilledSinceIn(t, n, pid) == KilledSinceIn(s, n, pid)
    ensures SettledIn(t, n) == SettledIn(s, n)
    ensures KillPrecedesEverySpawnIn(t, n) == KillPrecedesEverySpawnIn(s, n)
    ensures ExitCountIn(t, n) == ExitCountIn(s, n)
  {
    if n > 0 {
      SamePrefix(t, s, n - 1);
    }
  }

  /** A child once spawned stays spawned however the trace grows. */
  lemma SpawnedStays(t: seq<Effect>, s: seq<Effect>, pid: Pid)
    requires Spawned(t, pid)
    ensures Spawned(t + s, pid)
  {
    var i :| 0 <= i < |t| && t[i].Spawn? && t[i].pid == pid;
    assert (t + s)[i] == t[i];
  }

  /** How appending one effect changes each trace property: only a `Spawn`
      moves the last spawned child, only an `Exit` is counted, a `Kill` of
      the last spawned child settles the trace, an effect that neither spawns
      nor kills leaves it as settled as it was, and a `Spawn` keeps
      `KillPrecedesEverySpawn` exactly when the trace before it was settled. */
  lemma AppendOne(t: seq<Effect>, e: Effect)
    ensures LastSpawned(t + [e]) == if e.Spawn? then Some(e.pid) else LastSpawned(t)
    ensures ExitCount(t + [e]) == ExitCount(t) + (if e.Exit? then 1 else 0)
    ensures !e.Spawn? && (Settled(t) || (e.Kill? && LastSpawned(t) == Some(e.pid))) ==> Settled(t + [e])
    ensures e.Spawn? ==> !Settled(t + [e])
    ensures !e.Spawn? && !e.Kill? ==> (Settled(t + [e]) <==> Settled(t))
    ensures KillPrecedesEverySpawn(t + [e]) <==> KillPrecedesEverySpawn(t) && (e.Spawn? ==> Settled(t))
  {
    SamePrefix(t + [e], t, |t|);
  }
}
