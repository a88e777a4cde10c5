/** The restart-on-rebuild build plugin. Creating it installs a stop handler on
    the host's `exit`, `SIGINT` and `SIGHUP` events; `setup` checks that the
    build writes a single `outfile` and registers two build hooks. On every
    build start the running child is asked to terminate; on every successful
    build end `node <outfile>` is started as the new child; the first stop
    event removes the stop handler, asks the child to terminate and, unless
    configured otherwise, exits the host. */
module RestartOnRebuild {
  import opened Effects

  /** The message `setup` throws when the build does not name one output file. */
  const OnlyOneFileError: string := "restart-on-rebuild supports only one file (outfile)"

  /** The stop events, in the order the handler is installed and removed. */
  const StopEvents: seq<StopEvent> := [ExitEvent, SigInt, SigHup]

  /** The plugin options. Each callback is either supplied or absent (an absent
      one is skipped and records nothing); the two flags may be left undefined. */
  datatype Options = Options(
    onRebuildStart: bool,
    onRebuildEnd: bool,
    onRebuildFailed: bool,
    onServerStart: bool,
    onServerClosed: bool,
    redirectOutput: Option<bool>,
    killNodeProcessOnInterrupt: Option<bool>)

  /** Outcome of `setup`: hooks registered, or the error it throws. */
  datatype SetupResult = Registered | Thrown(message: string)

  /** The value of a flag that defaults to true: an undefined flag is on. */
  function DefaultTrue(flag: Option<bool>): (r: bool)
    ensures r <==> flag != Some(false)
  {
    match flag
    case None => true
    case Some(b) => b
  }

  /** The effect of an optional callback: recorded only when it is supplied. */
  function Call(present: bool, e: Effect): seq<Effect>
  {
    if present then [e] else []
  }

  /** `server?.kill()`: a termination request for the current child, if any. */
  function KillRequest(server: Option<Pid>): seq<Effect>
  {
    if server.Some? then [Kill(server.value)] else []
  }

  /** What the build-start hook records. */
  function StartEffects(o: Options, server: Option<Pid>): seq<Effect>
  {
    KillRequest(server) + Call(o.onRebuildStart, CbRebuildStart)
  }

  /** What `startServer` records for the new child `pid`. */
  function ServerEffects(o: Options, pid: Pid, path: string): seq<Effect>
  {
    [Spawn(pid, path)] + Call(o.onServerStart, CbServerStart)
    + (if DefaultTrue(o.redirectOutput) then [PipeOutput(pid)] else [])
  }

  /** What the build-end hook records, given the build's errors, the elapsed
      time and the pid the spawn would get. */
  function EndEffects(o: Options, errors: seq<Message>, ms: int, pid: Pid, path: string): seq<Effect>
  {
    if |errors| > 0 then Call(o.onRebuildFailed, CbRebuildFailed(errors, ms))
    else Call(o.onRebuildEnd, CbRebuildEnd(ms)) + ServerEffects(o, pid, path)
  }

  /** What the stop handler records after removing itself. */
  function TeardownEffects(o: Options, server: Option<Pid>): seq<Effect>
  {
    KillRequest(server) + (if DefaultTrue(o.killNodeProcessOnInterrupt) then [Exit(0)] else [])
  }

  /** What a child's `close` event records. */
  function CloseEffects(o: Options, code: Option<int>): seq<Effect>
  {
    Call(o.onServerClosed, CbServerClosed(code))
  }

  /** A build start first asks the current child, if any, to terminate, then
      reports the start; it never spawns and never exits. */
  lemma StartKillsFirst(o: Options, server: Option<Pid>)
    ensures var r := StartEffects(o, server);
      && (server.Some? ==> |r| > 0 && r[0] == Kill(server.value))
      && (forall e | e in r :: !e.Spawn? && !e.Exit? && (e.Kill? ==> server == Some(e.pid)))
      && (CbRebuildStart in r <==> o.onRebuildStart)
      && (o.onRebuildStart ==> r[|r| - 1] == CbRebuildStart)
  {
  }

  /** A failed build reports exactly its errors and the elapsed time, and
      records no spawn, no success report and no server start. */
  lemma FailedBuildSpawnsNothing(o: Options, errors: seq<Message>, ms: int, pid: Pid, path: string)
    requires |errors| > 0
    ensures var r := EndEffects(o, errors, ms, pid, path);
      && (forall e | e in r :: e == CbRebuildFailed(errors, ms))
      && (forall e | e in r :: !e.Spawn? && !e.CbRebuildEnd? && !e.CbServerStart?)
      && (CbRebuildFailed(errors, ms) in r <==> o.onRebuildFailed)
  {
  }

  /** A successful build reports the elapsed time, then spawns `node` on the
      output path exactly once, then reports the server start. */
  lemma SuccessfulBuildOrder(o: Options, errors: seq<Message>, ms: int, pid: Pid, path: string)
    requires |errors| == 0
    ensures var r := EndEffects(o, errors, ms, pid, path);
      && (exists i :: 0 <= i < |r| && r[i] == Spawn(pid, path) && forall j | 0 <= j < |r| && r[j].Spawn? :: j == i)
      && (forall i, j | 0 <= i < |r| && 0 <= j < |r| && r[i].CbRebuildEnd? && r[j].Spawn? :: i < j)
      && (forall i, j | 0 <= i < |r| && 0 <= j < |r| && r[i].Spawn? && r[j].CbServerStart? :: i < j)
  {
    var r := EndEffects(o, errors, ms, pid, path);
    var k := SuccessfulBuildShape(o, errors, ms, pid, path);
    assert r[k] == Spawn(pid, path) && forall j | 0 <= j < |r| && r[j].Spawn? :: j == k;
  }

  /** The effects of a successful build around its one spawn, at position `k`:
      before it only the success report, after it only the server-start report
      and the output pipe, each there exactly when configured. */
  lemma SuccessfulBuildShape(o: Options, errors: seq<Message>, ms: int, pid: Pid, path: string) returns (k: nat)
    requires |errors| == 0
    ensures var r := EndEffects(o, errors, ms, pid, path);
      && k < |r| && r[k] == Spawn(pid, path)
      && (forall i | 0 <= i < k :: r[i] == CbRebuildEnd(ms))
      && (forall i | k < i < |r| :: r[i] == CbServerStart || r[i] == PipeOutput(pid))
  {
    var r := EndEffects(o, errors, ms, pid, path);
    var pre := Call(o.onRebuildEnd, CbRebuildEnd(ms));
    var post := Call(o.onServerStart, CbServerStart)
      + (if DefaultTrue(o.redirectOutput) then [PipeOutput(pid)] else []);
    assert r == pre + [Spawn(pid, path)] + post;
    k := |pre|;
    forall i | k < i < |r|
      ensures r[i] == CbServerStart || r[i] == PipeOutput(pid)
    {
      assert r[i] == post[i - k - 1];
    }
  }

  /** A successful build reports its elapsed time exactly when `onRebuildEnd`
      is supplied, reports the server start exactly when `onServerStart` is,
      pipes the child's output exactly when `redirectOutput` is not false, and
      neither reports a failure nor kills nor exits. */
  lemma SuccessfulBuildReports(o: Options, errors: seq<Message>, ms: int, pid: Pid, path: string)
    requires |errors| == 0
    ensures var r := EndEffects(o, errors, ms, pid, path);
      && (CbRebuildEnd(ms) in r <==> o.onRebuildEnd)
      && (CbServerStart in r <==> o.onServerStart)
      && (PipeOutput(pid) in r <==> o.redirectOutput != Some(false))
      && (forall e | e in r :: !e.CbRebuildFailed? && !e.Kill? && !e.Exit?)
  {
    var k := SuccessfulBuildShape(o, errors, ms, pid, path);
  }

  /** Teardown first asks the current child, if any, to terminate with
      SIGTERM, and then exits the host with code 0 exactly when
      `killNodeProcessOnInterrupt` is on, which it is unless set to false. */
  lemma TeardownKillsThenExits(o: Options, server: Option<Pid>)
    ensures var r := TeardownEffects(o, server);
      && (forall e | e in r :: !e.Spawn? && (e.Kill? || e == Exit(0)))
      && (forall p: Pid :: Kill(p) in r <==> server == Some(p))
      && (server.Some? ==> |r| > 0 && r[0] == Kill(server.value))
      && (Exit(0) in r <==> o.killNodeProcessOnInterrupt != Some(false))
      && (Exit(0) in r ==> r[|r| - 1] == Exit(0))
      && ExitCount(r) <= 1
  {
    var k := KillRequest(server);
    NoExitWhenCountZero(k, |k|);
    if DefaultTrue(o.killNodeProcessOnInterrupt) {
      AppendOne(k, Exit(0));
    } else {
      assert TeardownEffects(o, server) == k;
    }
  }

  /** `StopEvents` lists every stop event. */
  lemma AllStopEventsListed(s: set<StopEvent>)
    requires s == set j | 0 <= j < |StopEvents| :: StopEvents[j]
    ensures s == {ExitEvent, SigInt, SigHup}
  {
    assert StopEvents[0] in s && StopEvents[1] in s && StopEvents[2] in s;
  }

  /** The plugin instance: the closure state the source keeps in captured
      variables, plus the trace of what it did. */
  class Coordinator {
    const options: Options
    /** The current child (src/index.ts:29); only `startServer` assigns it. */
    var server: Option<Pid>
    /** The stop events on which the stop handler is currently registered. */
    var listening: set<StopEvent>
    /** `setup` succeeded and registered the build hooks. */
    var hooked: bool
    /** The `outfile` that `setup` accepted. */
    var resultPath: string
    /** The clock value of the latest build start, 0 before any (src/index.ts:69). */
    var started: int
    /** Every effect so far, in order. */
    var trace: seq<Effect>

    /** The latest clock value any event has carried. */
    ghost var clock: int
    /** A build start has not yet been followed by a build end. */
    ghost var inBuild: bool
    /** Every build end so far came after a build start of its own. */
    ghost var ordered: bool
    /** How many times the stop handler's body has run. */
    ghost var teardowns: nat

    ghost predicate Valid()
      reads this
    {
      && teardowns <= 1
      && (teardowns == 0 ==> listening == {ExitEvent, SigInt, SigHup})
      && (teardowns == 1 ==> listening == {})
      && ExitCount(trace) <= teardowns
      && server == LastSpawned(trace)
      && (ordered ==> KillPrecedesEverySpawn(trace))
      && (ordered && inBuild ==> Settled(trace))
      && 0 <= started <= clock
    }

    /** Plugin creation: records the options and registers the stop handler on
        each stop event. */
    constructor (o: Options)
      ensures options == o && server == None && trace == [] && !hooked && started == 0 && clock == 0
      ensures listening == {ExitEvent, SigInt, SigHup}
      ensures ordered && !inBuild
      ensures Valid()
    {
      var installed: set<StopEvent> := {};
      var i := 0;
      while i < |StopEvents|
        invariant 0 <= i <= |StopEvents|
        invariant installed == set j | 0 <= j < i :: StopEvents[j]
      {
        installed := installed + {StopEvents[i]};
        i := i + 1;
      }
      AllStopEventsListed(installed);
      options := o;
      server := None;
      listening := installed;
      hooked := false;
      resultPath := "";
      started := 0;
      trace := [];
      clock := 0;
      inBuild := false;
      ordered := true;
      teardowns := 0;
    }

    /** `setup`: throws unless `outfile` is a string; otherwise remembers it,
        resets the build timer and registers the build hooks. The stop
        handler was installed at creation either way. */
    method Setup(outfile: Option<string>) returns (r: SetupResult)
      requires Valid() && !hooked
      modifies this`resultPath, this`started, this`hooked
      ensures r == if outfile.Some? then Registered else Thrown(OnlyOneFileError)
      ensures hooked <==> outfile.Some?
      ensures outfile.Some? ==> resultPath == outfile.value && started == 0
      ensures outfile.None? ==> resultPath == old(resultPath) && started == old(started)
      ensures Valid()
    {
      if outfile.None? {
        return Thrown(OnlyOneFileError);
      }
      resultPath := outfile.value;
      started := 0;
      hooked := true;
      r := Registered;
    }

    /** The build-start hook at clock value `now`: asks the current child to
        terminate without waiting, stamps the build timer, reports the start. */
    method OnStart(now: int)
      requires Valid() && hooked && clock <= now
      modifies this`trace, this`started, this`clock, this`inBuild
      ensures trace == old(trace) + StartEffects(options, old(server))
      ensures started == now && clock == now
      ensures inBuild && ordered == old(ordered)
      ensures Valid()
    {
      RequestKill();
      started := now;
      clock := now;
      inBuild := true;
      if options.onRebuildStart {
        Notify(CbRebuildStart);
      }
    }

    /** The build-end hook at clock value `now` with the build's `errors`;
        `pid` is the identity the operating system gives the child if one is
        spawned. A failed build only reports; a successful one reports and
        starts the new child. */
    method OnEnd(now: int, errors: seq<Message>, pid: Pid)
      requires Valid() && hooked && clock <= now
      modifies this`trace, this`server, this`clock, this`inBuild, this`ordered
      ensures 0 <= now - old(started)
      ensures trace == old(trace) + EndEffects(options, errors, now - old(started), pid, resultPath)
      ensures server == if |errors| > 0 then old(server) else Some(pid)
      ensures clock == now && !inBuild
      ensures ordered <==> old(ordered) && old(inBuild)
      ensures ordered ==> KillPrecedesEverySpawn(trace)
      ensures KillPrecedesEverySpawn(trace) <==>
              KillPrecedesEverySpawn(old(trace)) && (|errors| == 0 ==> Settled(old(trace)))
      ensures |errors| == 0 ==> Spawned(trace, pid) && !Settled(trace)
      ensures Valid()
    {
      var delta := now - started;
      EndBuild(now);
      if |errors| > 0 {
        if options.onRebuildFailed {
          Notify(CbRebuildFailed(errors, delta));
        }
        return;
      }
      ghost var before, reported := trace, Call(options.onRebuildEnd, CbRebuildEnd(delta));
      if options.onRebuildEnd {
        Notify(CbRebuildEnd(delta));
      }
      assert trace == before + reported;
      StartServer(resultPath, pid);
      AppendAssoc(before, reported, ServerEffects(options, pid, resultPath));
    }

    /** Ghost bookkeeping of a build end at clock value `now`: the build is no
        longer in progress, and a build end without a build start of its own
        marks the history as unordered. */
    ghost method EndBuild(now: int)
      requires Valid() && clock <= now
      modifies this`clock, this`inBuild, this`ordered
      ensures Valid() && !inBuild && clock == now
      ensures ordered <==> old(ordered) && old(inBuild)
      ensures ordered ==> Settled(trace)
    {
      clock := now;
      if !inBuild {
        ordered := false;
      }
      inBuild := false;
    }

    /** `startServer`: spawns `node serverPath` as child `pid`, makes it the
        current child, reports the start and pipes its output when
        `redirectOutput` is on. Its `close` listener is `ChildClosed`. */
    method StartServer(serverPath: string, pid: Pid)
      requires Valid() && !inBuild && (ordered ==> Settled(trace))
      modifies this`server, this`trace
      ensures trace == old(trace) + ServerEffects(options, pid, serverPath)
      ensures server == Some(pid) && Spawned(trace, pid) && !Settled(trace)
      ensures KillPrecedesEverySpawn(trace) <==> KillPrecedesEverySpawn(old(trace)) && Settled(old(trace))
      ensures Valid()
    {
      AppendOne(trace, Spawn(pid, serverPath));
      trace := trace + [Spawn(pid, serverPath)];
      ghost var at := |trace| - 1;
      server := Some(pid);
      if options.onServerStart {
        Notify(CbServerStart);
      }
      if DefaultTrue(options.redirectOutput) {
        Notify(PipeOutput(pid));
      }
      assert trace[at] == Spawn(pid, serverPath);
    }

    /** The `close` event of a child this plugin spawned, current or
        superseded alike: reports the exit code and changes nothing else. */
    method ChildClosed(child: Pid, code: Option<int>)
      requires Valid() && Spawned(trace, child)
      modifies this`trace
      ensures trace == old(trace) + CloseEffects(options, code)
      ensures Valid()
    {
      if options.onServerClosed {
        Notify(CbServerClosed(code));
      }
    }

    /** Delivery of a stop event to the host: runs the stop handler if it is
        still registered on that event, and does nothing otherwise. */
    method Signal(ev: StopEvent)
      requires Valid()
      modifies this`listening, this`trace, this`teardowns
      ensures ev in old(listening) ==> listening == {} && trace == old(trace) + TeardownEffects(options, old(server))
      ensures ev !in old(listening) ==> listening == old(listening) && trace == old(trace)
      ensures ExitCount(trace) <= 1
      ensures Valid()
    {
      if ev in listening {
        KillServer();
      }
    }

    /** `killServer`: first removes itself from every stop event, then asks
        the current child to terminate with SIGTERM, then exits the host with
        code 0 if `killNodeProcessOnInterrupt` is on. */
    method KillServer()
      requires Valid() && listening != {}
      modifies this`listening, this`trace, this`teardowns
      ensures listening == {} && teardowns == 1
      ensures trace == old(trace) + TeardownEffects(options, old(server))
      ensures Valid()
    {
      var i := 0;
      while i < |StopEvents|
        invariant 0 <= i <= |StopEvents|
        invariant listening == old(listening) - set j | 0 <= j < i :: StopEvents[j]
        modifies this`listening
      {
        listening := listening - {StopEvents[i]};
        i := i + 1;
      }
      AllStopEventsListed(set j | 0 <= j < |StopEvents| :: StopEvents[j]);
      teardowns := teardowns + 1;
      RequestKill();
      if DefaultTrue(options.killNodeProcessOnInterrupt) {
        AppendOne(trace, Exit(0));
        trace := trace + [Exit(0)];
      }
    }

    /** `server?.kill()`: asks the current child, if any, to terminate. The
        last spawned child has been asked to terminate afterwards. */
    method RequestKill()
      requires Valid()
      modifies this`trace
      ensures Valid() && Settled(trace)
      ensures trace == old(trace) + KillRequest(server)
      ensures ExitCount(trace) == ExitCount(old(trace))
    {
      if server.Some? {
        AppendOne(trace, Kill(server.value));
        trace := trace + [Kill(server.value)];
      }
    }

    /** Invokes a supplied callback or starts an output pipe: an effect that
        neither spawns, kills nor exits. */
    method Notify(e: Effect)
      requires Valid() && !e.Spawn? && !e.Kill? && !e.Exit?
      modifies this`trace
      ensures trace == old(trace) + [e]
      ensures ExitCount(trace) == ExitCount(old(trace))
      ensures Settled(trace) == Settled(old(trace))
      ensures KillPrecedesEverySpawn(trace) == KillPrecedesEverySpawn(old(trace))
      ensures Valid()
    {
      AppendOne(trace, e);
      trace := trace + [e];
    }
  }
}
