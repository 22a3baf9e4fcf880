/**
 * The wrapper's globals as mutable state, and the procedures that overwrite
 * them: `settingsDefault`, `parseArgument` and the part of `main` that feeds
 * it the command line, checks the one conflict between settings and derives
 * the engine's linearised mode.
 */
module Resolver {
  import opened Scanf
  import opened Directives
  import opened Profile

  /** What `main` makes of the settings once every argument is applied. */
  datatype Resolution =
    | ConflictExit
    | Ready(profile: Settings, linearizeOperation: bool)

  /** True when `arg` is a ROS remapping argument, one that contains `:=`. */
  predicate IsRemapping(arg: string) {
    exists i :: 0 <= i < |arg| - 1 && arg[i] == ':' && arg[i + 1] == '='
  }

  /**
   * What `ros::init` leaves of the command line: it takes out every
   * remapping argument, wherever it stands, and keeps the others in order.
   */
  function RosArgs(argv: seq<string>): (kept: seq<string>)
    ensures |kept| <= |argv|
  {
    if argv == [] then []
    else
      var last := argv[|argv| - 1];
      RosArgs(argv[..|argv| - 1]) + (if IsRemapping(last) then [] else [last])
  }

  /**
   * The arguments `main` hands to `parseArgument`: what `ros::init` leaves,
   * without the first, which is the program name. None is a remapping.
   */
  function CommandArgs(argv: seq<string>): (args: seq<string>)
    ensures |args| < |argv| || argv == []
    ensures forall i :: 0 <= i < |args| ==> !IsRemapping(args[i])
  {
    var kept := RosArgs(argv);
    RosArgsDropsRemappings(argv);
    if kept == [] then [] else kept[1..]
  }

  /** `ros::init` leaves no remapping argument behind. */
  lemma {:induction false} RosArgsDropsRemappings(argv: seq<string>)
    ensures forall i :: 0 <= i < |RosArgs(argv)| ==> !IsRemapping(RosArgs(argv)[i])
  {
    if argv != [] {
      RosArgsDropsRemappings(argv[..|argv| - 1]);
    }
  }

  /** `ros::init` works argument by argument: the kept part of a concatenation is the concatenation of the kept parts. */
  lemma {:induction false} RosArgsAppend(a: seq<string>, b: seq<string>)
    ensures RosArgs(a + b) == RosArgs(a) + RosArgs(b)
  {
    if b == [] {
      assert a + b == a;
    } else {
      var last := b[|b| - 1];
      assert (a + b)[|a + b| - 1] == last;
      assert (a + b)[..|a + b| - 1] == a + b[..|b| - 1];
      RosArgsAppend(a, b[..|b| - 1]);
    }
  }

  /** A command line without remapping arguments is left as it is. */
  lemma {:induction false} RosArgsKeepsPlain(argv: seq<string>)
    requires forall i :: 0 <= i < |argv| ==> !IsRemapping(argv[i])
    ensures RosArgs(argv) == argv
  {
    if argv != [] {
      RosArgsKeepsPlain(argv[..|argv| - 1]);
    }
  }

  /** Whatever holds of every argument holds of every argument `ros::init` keeps. */
  lemma {:induction false} RosArgsKeeps(argv: seq<string>, p: string -> bool)
    requires forall i :: 0 <= i < |argv| ==> p(argv[i])
    ensures forall i :: 0 <= i < |RosArgs(argv)| ==> p(RosArgs(argv)[i])
  {
    if argv != [] {
      RosArgsKeeps(argv[..|argv| - 1], p);
    }
  }

  /** Whatever holds of every argument after the program name holds of every argument parsed. */
  lemma CommandArgsKeeps(argv: seq<string>, p: string -> bool)
    requires forall i :: 1 <= i < |argv| ==> p(argv[i])
    ensures forall i :: 0 <= i < |CommandArgs(argv)| ==> p(CommandArgs(argv)[i])
  {
    if argv != [] {
      var rest := argv[1..];
      assert forall i :: 0 <= i < |rest| ==> p(rest[i]) by {
        forall i | 0 <= i < |rest| ensures p(rest[i]) {
          assert rest[i] == argv[i + 1];
        }
      }
      RosArgsKeeps(rest, p);
      assert argv == [argv[0]] + rest;
      RosArgsAppend([argv[0]], rest);
      assert [argv[0]][..0] == [];
      var args := CommandArgs(argv);
      forall i | 0 <= i < |args| ensures p(args[i]) {
        if IsRemapping(argv[0]) {
          assert args[i] == RosArgs(rest)[i + 1];
        } else {
          assert args[i] == RosArgs(rest)[i];
        }
      }
    }
  }

  /** After a program name that is no remapping, the arguments are what `ros::init` keeps of the rest. */
  lemma CommandArgsAfterName(prog: string, rest: seq<string>)
    requires !IsRemapping(prog)
    ensures CommandArgs([prog] + rest) == RosArgs(rest)
  {
    RosArgsAppend([prog], rest);
    assert RosArgs([prog]) == [prog] by {
      assert [prog][..0] == [];
    }
  }

  /** The arguments `main` parses around one plain argument `arg`. */
  lemma CommandArgsSplit(prog: string, before: seq<string>, arg: string, after: seq<string>)
    requires !IsRemapping(prog) && !IsRemapping(arg)
    ensures CommandArgs([prog] + before + [arg] + after) == RosArgs(before) + [arg] + RosArgs(after)
  {
    assert [prog] + before + [arg] + after == [prog] + (before + [arg] + after);
    CommandArgsAfterName(prog, before + [arg] + after);
    RosArgsAppend(before + [arg], after);
    RosArgsAppend(before, [arg]);
    assert RosArgs([arg]) == [arg] by {
      assert [arg][..0] == [];
    }
  }

  /**
   * The outcome of `main`'s start-up for command line `argv`, starting from
   * `initial`, with the engine's point-selection strategy `pointSelection`.
   */
  function Resolve(initial: Settings, argv: seq<string>, pointSelection: int): Resolution {
    var s := Fold(initial, CommandArgs(argv));
    if s.switches.enableLoopClosing && pointSelection != 1 then ConflictExit
    else Ready(s, s.playback.playbackSpeed == 0.0)
  }

  /**
   * The global variables argument parsing reads and writes, in the five
   * groups of `Settings`; each statement below overwrites one global in place.
   */
  class Globals {
    var paths: Paths
    var playback: Playback
    var switches: Switches
    var budget: Budget
    var photometric: Photometric

    /** The current values of all the globals. */
    function Snapshot(): Settings
      reads this
    {
      Settings(paths, playback, switches, budget, photometric)
    }

    /**
     * The globals at program start: the wrapper's own at their initialisers,
     * the engine's as `engine` has them.
     */
    constructor (engine: Settings)
      ensures Snapshot() == Startup(engine)
    {
      paths := Paths(
        vignette := "/media/gaoxiang/Data1/Dataset/TUM-MONO/sequence_31/vignette.png",
        gammaCalib := "/media/gaoxiang/Data1/Dataset/TUM-MONO/sequence_31/pcalib.txt",
        source := "/media/gaoxiang/Data1/Dataset/TUM-MONO/sequence_31/",
        calib := "/media/gaoxiang/Data1/Dataset/TUM-MONO/sequence_31/camera.txt",
        outputFile := "./results.txt",
        vocPath := "/home/yoni4/Desktop/LDSO/catkin_ws/src/ldso_2/vocab/orbvoc.dbow3");
      playback := Playback(rescale := 1.0, startIdx := 0, endIdx := 100000, playbackSpeed := 0.0, preload := false);
      switches := engine.switches.(useSampleOutput := false, disableROS := false, reversePlay := false, prefetch := false);
      budget := engine.budget;
      photometric := engine.photometric;
    }

    /** `settingsDefault(preset)`. */
    method SettingsDefault(preset: int)
      modifies this
      ensures Snapshot() == ApplyPreset(old(Snapshot()), preset)
    {
      if preset == 0 || preset == 1 {
        playback := playback.(playbackSpeed := if preset == 0 then 0.0 else 1.0);
        playback := playback.(preload := preset == 1);
        budget := budget.(desiredImmatureDensity := 1500.0);
        budget := budget.(desiredPointDensity := 2000.0);
        budget := budget.(minFrames := 5);
        budget := budget.(maxFrames := 7);
        budget := budget.(maxOptIterations := 6);
        budget := budget.(minOptIterations := 1);
        switches := switches.(logStuff := false);
      }
      if preset == 2 || preset == 3 {
        playback := playback.(playbackSpeed := if preset == 2 then 0.0 else 5.0);
        playback := playback.(preload := preset == 3);
        budget := budget.(desiredImmatureDensity := 600.0);
        budget := budget.(desiredPointDensity := 800.0);
        budget := budget.(minFrames := 4);
        budget := budget.(maxFrames := 6);
        budget := budget.(maxOptIterations := 4);
        budget := budget.(minOptIterations := 1);
        budget := budget.(benchmarkWidth := 424);
        budget := budget.(benchmarkHeight := 320);
        switches := switches.(logStuff := false);
      }
    }

    /** The branch of `parseArgument` for a one-way key whose value is 1. */
    method RaiseFlag(k: Key)
      requires OneWay(k)
      modifies this
      ensures Snapshot() == old(Snapshot()).(switches := Raise(old(switches), k))
    {
      match k
      case SampleOutput => switches := switches.(useSampleOutput := true);
      case Quiet => switches := switches.(debugoutRunquiet := true);
      case NoRos =>
        switches := switches.(disableROS := true);
        switches := switches.(disableReconfigure := true);
      case NoLog => switches := switches.(logStuff := false);
      case ReversePlay => switches := switches.(reversePlay := true);
      case NoGui => switches := switches.(disableAllDisplay := true);
      case NoMt => switches := switches.(multiThreading := false);
      case Prefetch => switches := switches.(prefetch := true);
      case Save => switches := switches.(debugSaveImages := true);
    }

    /** The branch of `parseArgument` for `mode=<n>`. */
    method SelectMode(n: int)
      modifies this
      ensures Snapshot() == old(Snapshot()).(photometric := ApplyMode(old(photometric), n))
    {
      if n == 1 {
        photometric := photometric.(photometricCalibration := 0);
        photometric := photometric.(affineOptModeA := 0.0);
        photometric := photometric.(affineOptModeB := 0.0);
      }
      if n == 2 {
        photometric := photometric.(photometricCalibration := 0);
        photometric := photometric.(affineOptModeA := -1.0);
        photometric := photometric.(affineOptModeB := -1.0);
        photometric := photometric.(minGradHistAdd := 3.0);
      }
    }

    /** The branches of `parseArgument` for the integer patterns. */
    method ExecuteInt(k: Key, n: int)
      requires ConversionOf(k) == IntConversion
      modifies this
      ensures Snapshot() == ApplyInt(old(Snapshot()), k, n)
    {
      if OneWay(k) {
        if n == 1 {
          RaiseFlag(k);
        }
      } else {
        match k
        case Preset => SettingsDefault(n);
        case Rec =>
          if n == 0 {
            switches := switches.(disableReconfigure := true);
          }
        case Start => playback := playback.(startIdx := n);
        case End => playback := playback.(endIdx := n);
        case LoopClosing =>
          if n == 1 {
            switches := switches.(enableLoopClosing := true);
          } else {
            switches := switches.(enableLoopClosing := false);
          }
        case Mode => SelectMode(n);
      }
    }

    /** The branches of `parseArgument` for the path patterns. */
    method ExecutePath(k: Key, w: string)
      requires ConversionOf(k) == WordConversion
      modifies this
      ensures Snapshot() == old(Snapshot()).(paths := AssignPath(old(paths), k, w))
    {
      match k
      case Files => paths := paths.(source := w);
      case Vocab => paths := paths.(vocPath := w);
      case Calib => paths := paths.(calib := w);
      case Vignette => paths := paths.(vignette := w);
      case Gamma => paths := paths.(gammaCalib := w);
      case Output => paths := paths.(outputFile := w);
    }

    /** The branches of `parseArgument` for the real-valued patterns. */
    method ExecuteReal(k: Key, x: real)
      requires ConversionOf(k) == FloatConversion
      modifies this
      ensures Snapshot() == old(Snapshot()).(playback := AssignReal(old(playback), k, x))
    {
      if k == Rescale {
        playback := playback.(rescale := x);
      } else {
        playback := playback.(playbackSpeed := x);
      }
    }

    /** Carries out a recognised directive. */
    method Execute(d: Directive)
      requires WellFormed(d)
      modifies this
      ensures Snapshot() == Apply(old(Snapshot()), d)
    {
      match ConversionOf(d.key)
      case IntConversion => ExecuteInt(d.key, d.value.n);
      case WordConversion => ExecutePath(d.key, d.value.w);
      case FloatConversion => ExecuteReal(d.key, d.value.x);
    }

    /**
     * `parseArgument(arg)`: carries out the directive of the first pattern
     * that matches, and reports whether any did; an argument no pattern
     * matches changes nothing.
     */
    method ParseArgument(arg: string) returns (recognised: bool)
      modifies this
      ensures recognised == Classify(arg).Some?
      ensures Snapshot() == Step(old(Snapshot()), arg)
    {
      match Classify(arg)
      case None =>
        return false;
      case Some(d) =>
        Execute(d);
        return true;
    }

    /**
     * `main`'s start-up: `ros::init` takes out the remapping arguments, every
     * remaining argument after the program name is parsed in order, then the
     * loop-closing conflict is checked and the linearised mode derived.
     */
    method ResolveArguments(argv: seq<string>, pointSelection: int) returns (outcome: Resolution)
      modifies this
      ensures outcome == Resolve(old(Snapshot()), argv, pointSelection)
      ensures Snapshot() == Fold(old(Snapshot()), CommandArgs(argv))
    {
      var kept := RosArgs(argv);
      var args := CommandArgs(argv);
      assert kept != [] ==> args == kept[1..];
      var i := 1;
      while i < |kept|
        invariant 1 <= i <= |kept| || (kept == [] && i == 1)
        invariant Snapshot() == Fold(old(Snapshot()), args[..i - 1])
      {
        assert args[i - 1] == kept[i];
        assert args[..i] == args[..i - 1] + [kept[i]];
        FoldSnoc(old(Snapshot()), args[..i - 1], kept[i]);
        var _ := ParseArgument(kept[i]);
        i := i + 1;
      }
      assert args[..|args|] == args;
      if switches.enableLoopClosing && pointSelection != 1 {
        return ConflictExit;
      }
      return Ready(Snapshot(), playback.playbackSpeed == 0.0);
    }
  }

  /**
   * Loop closing conflicts exactly when the last `loopclosing=` argument
   * enabled it and the point-selection strategy is not 1; whatever earlier
   * arguments said does not matter, and remapping arguments anywhere around
   * it are taken out before parsing. The program name and the deciding
   * argument are themselves no remappings (`ros::init` would take the
   * argument out).
   */
  lemma ConflictDecidedByLastLoopClosing(initial: Settings, prog: string, before: seq<string>, arg: string,
                                         n: int, after: seq<string>, pointSelection: int)
    requires !IsRemapping(prog) && !IsRemapping(arg)
    requires Classify(arg) == Some(Directive(LoopClosing, IntValue(n)))
    requires forall i :: 0 <= i < |after| ==> !WritesLoopClosing(after[i])
    ensures Resolve(initial, [prog] + before + [arg] + after, pointSelection).ConflictExit?
        <==> n == 1 && pointSelection != 1
  {
    CommandArgsSplit(prog, before, arg, after);
    RosArgsKeeps(after, a => !WritesLoopClosing(a));
    LastLoopClosingWins(initial, RosArgs(before), arg, n, RosArgs(after));
  }

  /**
   * With no `loopclosing=` argument, the engine's own setting decides: the
   * program stops exactly when that setting enables loop closing and the
   * point-selection strategy is not 1.
   */
  lemma ConflictWithoutLoopClosingArgument(initial: Settings, argv: seq<string>, pointSelection: int)
    requires forall i :: 1 <= i < |argv| ==> !WritesLoopClosing(argv[i])
    ensures Resolve(initial, argv, pointSelection).ConflictExit?
        <==> initial.switches.enableLoopClosing && pointSelection != 1
  {
    CommandArgsKeeps(argv, a => !WritesLoopClosing(a));
    FoldKeepsLoopClosing(initial, CommandArgs(argv));
  }

  /**
   * The engine runs linearised exactly when the last `speed=` argument, with
   * nothing after it writing the speed, asked for speed 0.
   */
  lemma LinearizedByLastSpeed(initial: Settings, prog: string, before: seq<string>, arg: string,
                              x: real, after: seq<string>, pointSelection: int)
    requires !IsRemapping(prog) && !IsRemapping(arg)
    requires Classify(arg) == Some(Directive(Speed, FloatValue(x)))
    requires forall i :: 0 <= i < |after| ==> !WritesSpeed(after[i])
    ensures var r := Resolve(initial, [prog] + before + [arg] + after, pointSelection);
      r.Ready? ==> (r.linearizeOperation <==> x == 0.0)
  {
    CommandArgsSplit(prog, before, arg, after);
    RosArgsKeeps(after, a => !WritesSpeed(a));
    LastSpeedWins(initial, RosArgs(before), arg, x, RosArgs(after));
  }

  /**
   * Without arguments the wrapper starts linearised, since its playback
   * speed starts at 0, and stops only on the engine's own loop-closing
   * conflict.
   */
  lemma NoArgumentsLinearized(engine: Settings, prog: string, pointSelection: int)
    ensures var r := Resolve(Startup(engine), [prog], pointSelection);
      && (r.ConflictExit? <==> engine.switches.enableLoopClosing && pointSelection != 1)
      && (r.Ready? ==> r.linearizeOperation && r.profile == Startup(engine))
  {
    assert [prog][..0] == [];
    assert CommandArgs([prog]) == [];
  }

  /** An argument without a colon is no remapping. */
  lemma NoColonNoRemapping(arg: string)
    requires ':' !in arg
    ensures !IsRemapping(arg)
  {
  }

  /** `name=<n>`, `name` a pattern name, spelt without a colon. */
  lemma DirectiveTextNoColon(k: Key, n: nat)
    requires ':' !in Name(k)
    ensures ':' !in Prefix(k) + Decimal(n)
  {
    var ds := Decimal(n);
    assert forall c :: c in ds ==> IsDigit(c);
  }

  /**
   * `preset=1 speed=0`: the later speed wins, so the engine runs linearised
   * with the rest of preset 1's bundle (preloading included), unless loop
   * closing was already on with a point-selection strategy other than 1.
   */
  lemma PresetOneThenSpeedZero(initial: Settings, prog: string, pointSelection: int)
    requires !IsRemapping(prog)
    ensures var r := Resolve(initial, [prog, Prefix(Preset) + IntText(1), Prefix(Speed) + Decimal(0)], pointSelection);
      && (r.ConflictExit? <==> initial.switches.enableLoopClosing && pointSelection != 1)
      && (r.Ready? ==> r.linearizeOperation && r.profile.playback.preload
                       && r.profile.budget == ApplyPreset(initial, 1).budget)
  {
    var a1 := Prefix(Preset) + IntText(1);
    var a2 := Prefix(Speed) + Decimal(0);
    DirectiveTextNoColon(Preset, 1);
    DirectiveTextNoColon(Speed, 0);
    NoColonNoRemapping(a1);
    NoColonNoRemapping(a2);
    RosArgsKeepsPlain([a1, a2]);
    CommandArgsAfterName(prog, [a1, a2]);
    assert [prog, a1, a2] == [prog] + [a1, a2];
    assert a1 + [] == a1 && a2 + [] == a2;
    PresetThenSpeed(initial, 1, 0, [], []);
    PresetKeeps(initial, 1);
    DefaultPreset(initial, 1);
  }
}
