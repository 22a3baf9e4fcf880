/**
 * The wrapper's `main` end to end: resolve the command line, stop on the
 * loop-closing conflict, otherwise build the SLAM system, open the viewer
 * unless display is disabled, process the image stream, write the two
 * trajectory files and, once the stream ends, save the viewer's point cloud.
 */
module Lifecycle {
  import opened Scanf
  import opened Directives
  import opened Profile
  import opened Resolver
  import opened Ingestion

  /** How the program ends once the image stream has stopped. */
  datatype Shutdown =
    | NullViewerDereference
    | PointCloudSaved(file: string)
    | NoPointCloud

  /**
   * A whole run of the program, with the calls the SLAM system received. A
   * run that stops on the conflict calls `exit` with `exitArgument` (the
   * parent sees it modulo 256).
   */
  datatype Run =
    | Exited(exitArgument: int, events: seq<EngineEvent>)
    | Ran(linearizeOperation: bool, viewerShown: bool, events: seq<EngineEvent>,
          trajectoryFiles: seq<string>, shutdown: Shutdown)

  const PointCloudFile: string := "./pointcloud.ply"

  /** The two trajectories written when the stream ends: with and without loop closing. */
  function TrajectoryFiles(outputFile: string): seq<string> {
    [outputFile, outputFile + ".noloop"]
  }

  /**
   * The program as written: the point cloud is saved through the viewer even
   * when display was disabled and no viewer exists.
   */
  function LaunchAsWritten(initial: Settings, argv: seq<string>, pointSelection: int, stamps: seq<real>): Run {
    match Resolve(initial, argv, pointSelection)
    case ConflictExit => Exited(-1, [])
    case Ready(s, linearize) =>
      var shown := !s.switches.disableAllDisplay;
      Ran(linearize, shown, Handshake(stamps), TrajectoryFiles(s.paths.outputFile),
          if shown then PointCloudSaved(PointCloudFile) else NullViewerDereference)
  }

  /**
   * The program with the point cloud saved only when a viewer exists; the
   * images arriving while it runs have header times `stamps`.
   */
  function Launch(initial: Settings, argv: seq<string>, pointSelection: int, stamps: seq<real>): Run {
    match Resolve(initial, argv, pointSelection)
    case ConflictExit => Exited(-1, [])
    case Ready(s, linearize) =>
      var shown := !s.switches.disableAllDisplay;
      Ran(linearize, shown, Handshake(stamps), TrajectoryFiles(s.paths.outputFile),
          if shown then PointCloudSaved(PointCloudFile) else NoPointCloud)
  }

  /**
   * `main` end to end: resolve the command line; on the conflict, stop
   * before the SLAM system exists; otherwise build it, deliver every image
   * of the stream to the callback in turn, and end as `Launch` says, naming
   * the trajectory files from the globals the arguments left behind.
   */
  method RunProgram(globals: Globals, argv: seq<string>, pointSelection: int, stamps: seq<real>) returns (run: Run)
    modifies globals
    ensures run == Launch(old(globals.Snapshot()), argv, pointSelection, stamps)
    ensures globals.Snapshot() == Fold(old(globals.Snapshot()), CommandArgs(argv))
  {
    var outcome := globals.ResolveArguments(argv, pointSelection);
    match outcome
    case ConflictExit =>
      return Exited(-1, []);
    case Ready(s, linearize) =>
      var engine := new MappingEngine();
      var driver := new LiveDriver(engine);
      var i := 0;
      while i < |stamps|
        invariant 0 <= i <= |stamps|
        invariant driver.Valid() && driver.engine == engine && driver.stamps == stamps[..i]
        invariant globals.Snapshot() == Fold(old(globals.Snapshot()), CommandArgs(argv))
      {
        driver.VidCb(stamps[i]);
        assert stamps[..i + 1] == stamps[..i] + [stamps[i]];
        i := i + 1;
      }
      assert stamps[..|stamps|] == stamps;
      var shown := !globals.switches.disableAllDisplay;
      return Ran(linearize, shown, engine.events, TrajectoryFiles(globals.paths.outputFile),
                 if shown then PointCloudSaved(PointCloudFile) else NoPointCloud);
  }

  /**
   * After the loop-closing conflict no frame ever reaches the SLAM system;
   * without it, every image of the stream does, in arrival order, numbered
   * from 0, each followed by a wait for mapping.
   */
  lemma SubmittedFrames(initial: Settings, argv: seq<string>, pointSelection: int, stamps: seq<real>)
    ensures var run := Launch(initial, argv, pointSelection, stamps);
      && (run.Exited? <==> Resolve(initial, argv, pointSelection).ConflictExit?)
      && Submitted(run.events) == (if run.Exited? then [] else Numbered(stamps))
      && |run.events| == (if run.Exited? then 0 else 2 * |stamps|)
  {
    SubmittedInOrder(stamps);
  }

  /**
   * A last `loopclosing=1` with a point-selection strategy other than 1
   * stops the program with `exit(-1)` before any frame is submitted,
   * whatever the image stream.
   */
  lemma LoopClosingConflictSubmitsNothing(initial: Settings, prog: string, before: seq<string>, arg: string,
                                          after: seq<string>, pointSelection: int, stamps: seq<real>)
    requires !IsRemapping(prog) && !IsRemapping(arg)
    requires Classify(arg) == Some(Directive(LoopClosing, IntValue(1)))
    requires forall i :: 0 <= i < |after| ==> !WritesLoopClosing(after[i])
    requires pointSelection != 1
    ensures var run := Launch(initial, [prog] + before + [arg] + after, pointSelection, stamps);
      run == Exited(-1, []) && Submitted(run.events) == []
  {
    ConflictDecidedByLastLoopClosing(initial, prog, before, arg, 1, after, pointSelection);
  }

  /** The corrected program never dereferences a missing viewer, and saves the point cloud exactly when a viewer was shown. */
  lemma LaunchNeverDereferencesNull(initial: Settings, argv: seq<string>, pointSelection: int, stamps: seq<real>)
    ensures var run := Launch(initial, argv, pointSelection, stamps);
      run.Ran? ==> run.shutdown != NullViewerDereference
                   && (run.shutdown == PointCloudSaved(PointCloudFile) <==> run.viewerShown)
  {
  }

  /** The correction changes nothing but the ending of a run without a viewer. */
  lemma LaunchDiffersOnlyWithoutViewer(initial: Settings, argv: seq<string>, pointSelection: int, stamps: seq<real>)
    ensures var fixed := Launch(initial, argv, pointSelection, stamps);
      var written := LaunchAsWritten(initial, argv, pointSelection, stamps);
      && (fixed == written <==> !(written.Ran? && !written.viewerShown))
      && (written.Ran? ==> fixed == written.(shutdown := fixed.shutdown))
  {
  }

  /** After `nogui=1` display is disabled and loop closing is as it was. */
  lemma NoGuiResolves(initial: Settings, prog: string, tail: string)
    requires tail == [] || !IsDigit(tail[0])
    requires !IsRemapping(prog) && !IsRemapping(Prefix(NoGui) + IntText(1) + tail)
    ensures var s := Fold(initial, CommandArgs([prog, Prefix(NoGui) + IntText(1) + tail]));
      s.switches.disableAllDisplay && s.switches.enableLoopClosing == initial.switches.enableLoopClosing
  {
    var arg := Prefix(NoGui) + IntText(1) + tail;
    assert [prog, arg] == [prog] + [arg];
    CommandArgsAfterName(prog, [arg]);
    RosArgsKeepsPlain([arg]);
    assert Fold(initial, [arg]) == Step(initial, arg) by {
      assert [arg][..0] == [];
    }
    OneWayFlag(initial, NoGui, 1, tail);
    RaiseSets(initial.switches, NoGui);
    RaiseMonotone(initial.switches, NoGui);
  }

  /**
   * As written, `nogui=1` without a loop-closing conflict ends the run by
   * saving the point cloud through a viewer that was never created.
   */
  lemma NoGuiDereferencesNullAsWritten(initial: Settings, prog: string, tail: string, pointSelection: int, stamps: seq<real>)
    requires tail == [] || !IsDigit(tail[0])
    requires !IsRemapping(prog) && !IsRemapping(Prefix(NoGui) + IntText(1) + tail)
    requires !initial.switches.enableLoopClosing || pointSelection == 1
    ensures var run := LaunchAsWritten(initial, [prog, Prefix(NoGui) + IntText(1) + tail], pointSelection, stamps);
      run.Ran? && !run.viewerShown && run.shutdown == NullViewerDereference
  {
    NoGuiResolves(initial, prog, tail);
  }

  /** Corrected, `nogui=1` without a loop-closing conflict ends the run without a point cloud. */
  lemma NoGuiSkipsPointCloud(initial: Settings, prog: string, tail: string, pointSelection: int, stamps: seq<real>)
    requires tail == [] || !IsDigit(tail[0])
    requires !IsRemapping(prog) && !IsRemapping(Prefix(NoGui) + IntText(1) + tail)
    requires !initial.switches.enableLoopClosing || pointSelection == 1
    ensures var run := Launch(initial, [prog, Prefix(NoGui) + IntText(1) + tail], pointSelection, stamps);
      run.Ran? && !run.viewerShown && run.shutdown == NoPointCloud
  {
    NoGuiResolves(initial, prog, tail);
  }
}
