/** Runs of the coordinator from creation through a few events, each with the
    trace it produces. */
module Scenarios {
  import opened Effects
  import opened RestartOnRebuild

  /** Every callback supplied, both flags left at their defaults. */
  function AllCallbacks(): Options
  {
    Options(true, true, true, true, true, None, None)
  }

  /** Build 1 succeeds and spawns child 7 from the output file; build 2 then
      starts, and child 7 is asked to terminate at once, without waiting for
      it to exit. */
  method RestartScenario() returns (t: seq<Effect>)
    ensures t == [CbRebuildStart, CbRebuildEnd(4), Spawn(7, "/out/app.js"), CbServerStart,
                  PipeOutput(7), Kill(7), CbRebuildStart]
  {
    var p := new Coordinator(AllCallbacks());
    var r := p.Setup(Some("/out/app.js"));
    p.OnStart(10);
    p.OnEnd(14, [], 7);
    p.OnStart(20);
    t := p.trace;
  }

  /** A build with two errors reports exactly those errors and spawns nothing. */
  method FailedBuildScenario(e1: Message, e2: Message) returns (t: seq<Effect>)
    ensures t == [CbRebuildStart, CbRebuildFailed([e1, e2], 3)]
  {
    var p := new Coordinator(AllCallbacks());
    var r := p.Setup(Some("/out/app.js"));
    p.OnStart(5);
    p.OnEnd(8, [e1, e2], 1);
    t := p.trace;
  }

  /** Without an `outfile`, setup throws and registers no build hook, while
      the stop handler installed at creation stays registered. */
  method MissingOutfileScenario() returns (r: SetupResult, hooked: bool, listening: set<StopEvent>)
    ensures r == Thrown(OnlyOneFileError) && !hooked
    ensures listening == {ExitEvent, SigInt, SigHup}
  {
    var p := new Coordinator(AllCallbacks());
    r := p.Setup(None);
    hooked, listening := p.hooked, p.listening;
  }

  /** SIGINT followed by SIGHUP with child 3 running: one SIGTERM and one
      exit, because the first delivery removed the handler from every stop
      event; with `killNodeProcessOnInterrupt` false, the child is still asked
      to terminate but the host does not exit. */
  method DoubleSignalScenario(killHost: bool) returns (t: seq<Effect>)
    ensures t == if killHost then [Spawn(3, "/out/app.js"), Kill(3), Exit(0)]
                 else [Spawn(3, "/out/app.js"), Kill(3)]
  {
    var p := new Coordinator(Options(false, false, false, false, false, Some(false), Some(killHost)));
    var r := p.Setup(Some("/out/app.js"));
    p.OnStart(0);
    p.OnEnd(0, [], 3);
    p.Signal(SigInt);
    p.Signal(SigHup);
    t := p.trace;
  }

  /** Under any options and any child identities: a successful build, a
      SIGINT, a failed build, another successful build and the new child's
      `close` event. Every spawn in the resulting trace follows a kill of the
      previously spawned child, and the host was told to exit at most once. */
  method OrderedBuildsScenario(o: Options, p1: Pid, p2: Pid, code: Option<int>, e: Message)
    returns (t: seq<Effect>)
    ensures KillPrecedesEverySpawn(t)
    ensures ExitCount(t) <= 1
  {
    var p := new Coordinator(o);
    var r := p.Setup(Some("/out/app.js"));
    p.OnStart(1);
    p.OnEnd(2, [], p1);
    p.Signal(SigInt);
    p.OnStart(3);
    p.OnEnd(4, [e], 0);
    p.OnStart(5);
    p.OnEnd(6, [], p2);
    p.ChildClosed(p2, code);
    t := p.trace;
  }

  /** Child `p1` is spawned, a build start asks it to terminate, and a second
      successful build spawns `p2`; then `p1`'s `close` event arrives. It is
      reported like any other close, and `p2` stays the current child. */
  method SupersededCloseScenario(o: Options, p1: Pid, p2: Pid, code: Option<int>)
    returns (t: seq<Effect>)
    ensures LastSpawned(t) == Some(p2) && Spawned(t, p1)
    ensures o.onServerClosed ==> |t| > 0 && t[|t| - 1] == CbServerClosed(code)
  {
    var p := new Coordinator(o);
    var r := p.Setup(Some("/out/app.js"));
    p.OnStart(1);
    p.OnEnd(2, [], p1);
    ghost var a := p.trace;
    p.OnStart(3);
    SpawnedStays(a, StartEffects(o, Some(p1)), p1);
    ghost var b := p.trace;
    p.OnEnd(4, [], p2);
    SpawnedStays(b, EndEffects(o, [], 1, p2, "/out/app.js"), p1);
    ghost var c := p.trace;
    p.ChildClosed(p1, code);
    SpawnedStays(c, CloseEffects(o, code), p1);
    t := p.trace;
  }

  /** Two build starts, then two successful build ends: the second build end
      spawns `p2` while `p1`, spawned by the first, was never asked to
      terminate, so the trace no longer has a kill before every spawn. */
  method OverlappingBuildsScenario(o: Options, p1: Pid, p2: Pid) returns (t: seq<Effect>)
    ensures !KillPrecedesEverySpawn(t)
    ensures Spawned(t, p2) && LastSpawned(t) == Some(p2)
  {
    var p := new Coordinator(o);
    var r := p.Setup(Some("/out/app.js"));
    p.OnStart(1);
    p.OnStart(2);
    p.OnEnd(3, [], p1);
    p.OnEnd(4, [], p2);
    t := p.trace;
  }
}
