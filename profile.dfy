/**
 * The operating profile the wrapper's arguments produce: one field per global
 * setting `parseArgument` and `settingsDefault` assign, and the meaning of
 * each recognised directive as a function on that record.
 */
module Profile {
  import opened Scanf
  import opened Directives

  /** The six paths the wrapper loads from or writes to. */
  datatype Paths = Paths(
    vignette: string,
    gammaCalib: string,
    source: string,
    calib: string,
    outputFile: string,
    vocPath: string)

  /** How the input is paced and which part of it is played. */
  datatype Playback = Playback(
    rescale: real,
    startIdx: int,
    endIdx: int,
    playbackSpeed: real,
    preload: bool)

  /** The on/off switches. */
  datatype Switches = Switches(
    useSampleOutput: bool,
    debugoutRunquiet: bool,
    disableROS: bool,
    disableReconfigure: bool,
    logStuff: bool,
    reversePlay: bool,
    disableAllDisplay: bool,
    multiThreading: bool,
    prefetch: bool,
    debugSaveImages: bool,
    enableLoopClosing: bool)

  /** The point, frame, iteration and resolution budget a preset installs. */
  datatype Budget = Budget(
    desiredImmatureDensity: real,
    desiredPointDensity: real,
    minFrames: int,
    maxFrames: int,
    maxOptIterations: int,
    minOptIterations: int,
    benchmarkWidth: int,
    benchmarkHeight: int)

  /** The photometric model `mode=` selects. */
  datatype Photometric = Photometric(
    photometricCalibration: int,
    affineOptModeA: real,
    affineOptModeB: real,
    minGradHistAdd: real)

  /**
   * Every global argument parsing touches, grouped. The wrapper declares and
   * initialises the paths, the playback group and the switches
   * `useSampleOutput`, `disableROS`, `reversePlay` and `prefetch`; the rest
   * belong to the mapping engine, whose initial values are given from outside.
   * Settings declared `float` or `double` are `real` here.
   */
  datatype Settings = Settings(
    paths: Paths,
    playback: Playback,
    switches: Switches,
    budget: Budget,
    photometric: Photometric)

  /** The switches the mapping engine owns, blanking out the wrapper's own. */
  function EngineSwitches(w: Switches): Switches {
    w.(useSampleOutput := false, disableROS := false, reversePlay := false, prefetch := false)
  }

  /** The wrapper's own globals at their initial values; the engine settings as `engine` has them. */
  function Startup(engine: Settings): (s: Settings)
    ensures s.playback.playbackSpeed == 0.0 && !s.playback.preload
    ensures s.playback.startIdx == 0 && s.playback.endIdx == 100000 && s.playback.rescale == 1.0
    ensures s.paths.outputFile == "./results.txt"
    ensures s.switches == EngineSwitches(engine.switches)
    ensures s.budget == engine.budget && s.photometric == engine.photometric
  {
    Settings(
      Paths(
        vignette := "/media/gaoxiang/Data1/Dataset/TUM-MONO/sequence_31/vignette.png",
        gammaCalib := "/media/gaoxiang/Data1/Dataset/TUM-MONO/sequence_31/pcalib.txt",
        source := "/media/gaoxiang/Data1/Dataset/TUM-MONO/sequence_31/",
        calib := "/media/gaoxiang/Data1/Dataset/TUM-MONO/sequence_31/camera.txt",
        outputFile := "./results.txt",
        vocPath := "/home/yoni4/Desktop/LDSO/catkin_ws/src/ldso_2/vocab/orbvoc.dbow3"),
      Playback(rescale := 1.0, startIdx := 0, endIdx := 100000, playbackSpeed := 0.0, preload := false),
      EngineSwitches(engine.switches),
      engine.budget,
      engine.photometric)
  }

  /** `settingsDefault(preset)`: installs the bundle of preset 0 to 3; any other value changes nothing. */
  function ApplyPreset(s: Settings, preset: int): Settings
  {
    if preset == 0 || preset == 1 then
      s.(playback := s.playback.(playbackSpeed := if preset == 0 then 0.0 else 1.0, preload := preset == 1),
         budget := s.budget.(
           desiredImmatureDensity := 1500.0,
           desiredPointDensity := 2000.0,
           minFrames := 5,
           maxFrames := 7,
           maxOptIterations := 6,
           minOptIterations := 1),
         switches := s.switches.(logStuff := false))
    else if preset == 2 || preset == 3 then
      s.(playback := s.playback.(playbackSpeed := if preset == 2 then 0.0 else 5.0, preload := preset == 3),
         budget := Budget(
           desiredImmatureDensity := 600.0,
           desiredPointDensity := 800.0,
           minFrames := 4,
           maxFrames := 6,
           maxOptIterations := 4,
           minOptIterations := 1,
           benchmarkWidth := 424,
           benchmarkHeight := 320),
         switches := s.switches.(logStuff := false))
    else s
  }

  /** The keys whose integer directive sets a flag only when the value is 1. */
  predicate OneWay(k: Key) {
    match k
    case SampleOutput | Quiet | NoRos | NoLog | ReversePlay | NoGui | NoMt | Prefetch | Save => true
    case _ => false
  }

  /** What a one-way key does to the switches when its value is 1; `noros` also disables reconfiguration. */
  function Raise(w: Switches, k: Key): Switches
    requires OneWay(k)
  {
    match k
    case SampleOutput => w.(useSampleOutput := true)
    case Quiet => w.(debugoutRunquiet := true)
    case NoRos => w.(disableROS := true, disableReconfigure := true)
    case NoLog => w.(logStuff := false)
    case ReversePlay => w.(reversePlay := true)
    case NoGui => w.(disableAllDisplay := true)
    case NoMt => w.(multiThreading := false)
    case Prefetch => w.(prefetch := true)
    case Save => w.(debugSaveImages := true)
  }

  /** True when the flag (or, for `noros`, both flags) of one-way key `k` is in its raised state. */
  predicate IsRaised(w: Switches, k: Key) {
    match k
    case SampleOutput => w.useSampleOutput
    case Quiet => w.debugoutRunquiet
    case NoRos => w.disableROS && w.disableReconfigure
    case NoLog => !w.logStuff
    case ReversePlay => w.reversePlay
    case NoGui => w.disableAllDisplay
    case NoMt => !w.multiThreading
    case Prefetch => w.prefetch
    case Save => w.debugSaveImages
    case _ => false
  }

  /** `mode=<n>`: 1 and 2 select an uncalibrated photometric mode; 0 and anything else change nothing. */
  function ApplyMode(p: Photometric, n: int): Photometric {
    if n == 1 then
      p.(photometricCalibration := 0, affineOptModeA := 0.0, affineOptModeB := 0.0)
    else if n == 2 then
      Photometric(photometricCalibration := 0, affineOptModeA := -1.0, affineOptModeB := -1.0, minGradHistAdd := 3.0)
    else p
  }

  /** The effect of an integer-valued directive. */
  function ApplyInt(s: Settings, k: Key, n: int): Settings
    requires ConversionOf(k) == IntConversion
  {
    if OneWay(k) then (if n == 1 then s.(switches := Raise(s.switches, k)) else s)
    else match k
      case Preset => ApplyPreset(s, n)
      case Rec => if n == 0 then s.(switches := s.switches.(disableReconfigure := true)) else s
      case Start => s.(playback := s.playback.(startIdx := n))
      case End => s.(playback := s.playback.(endIdx := n))
      case LoopClosing => s.(switches := s.switches.(enableLoopClosing := n == 1))
      case Mode => s.(photometric := ApplyMode(s.photometric, n))
  }

  /** The effect of a path directive on the paths: the word replaces one path, unconditionally. */
  function AssignPath(p: Paths, k: Key, w: string): Paths
    requires ConversionOf(k) == WordConversion
  {
    match k
    case Files => p.(source := w)
    case Vocab => p.(vocPath := w)
    case Calib => p.(calib := w)
    case Vignette => p.(vignette := w)
    case Gamma => p.(gammaCalib := w)
    case Output => p.(outputFile := w)
  }

  /** The effect of a real-valued directive on the playback group: the value replaces one setting. */
  function AssignReal(b: Playback, k: Key, x: real): Playback
    requires ConversionOf(k) == FloatConversion
  {
    if k == Rescale then b.(rescale := x) else b.(playbackSpeed := x)
  }

  /** The effect `parseArgument` gives a recognised directive. */
  function Apply(s: Settings, d: Directive): Settings
    requires WellFormed(d)
  {
    match ConversionOf(d.key)
    case IntConversion => ApplyInt(s, d.key, d.value.n)
    case WordConversion => s.(paths := AssignPath(s.paths, d.key, d.value.w))
    case FloatConversion => s.(playback := AssignReal(s.playback, d.key, d.value.x))
  }

  /** `parseArgument(arg)`: an unrecognised argument leaves every setting as it was. */
  function Step(s: Settings, arg: string): Settings {
    match Classify(arg)
    case None => s
    case Some(d) => Apply(s, d)
  }

  /** The arguments applied one after another, in the order given. */
  function Fold(s: Settings, args: seq<string>): Settings {
    if args == [] then s else Step(Fold(s, args[..|args| - 1]), args[|args| - 1])
  }

  /** The path a word-valued key assigns. */
  function PathOf(p: Paths, k: Key): string
    requires ConversionOf(k) == WordConversion
  {
    match k
    case Files => p.source
    case Vocab => p.vocPath
    case Calib => p.calib
    case Vignette => p.vignette
    case Gamma => p.gammaCalib
    case Output => p.outputFile
  }

  /** True when `arg` is recognised as a directive that may write `playbackSpeed`. */
  predicate WritesSpeed(arg: string) {
    match Classify(arg)
    case None => false
    case Some(d) => d.key == Speed || (d.key == Preset && 0 <= d.value.n <= 3)
  }

  /** True when `arg` is recognised as a directive that writes `setting_enableLoopClosing`. */
  predicate WritesLoopClosing(arg: string) {
    match Classify(arg)
    case None => false
    case Some(d) => d.key == LoopClosing
  }

  /** The flags no directive can clear once they are raised. */
  predicate RaisedFlags(w: Switches, v: Switches) {
    && (w.useSampleOutput ==> v.useSampleOutput)
    && (w.debugoutRunquiet ==> v.debugoutRunquiet)
    && (w.disableReconfigure ==> v.disableReconfigure)
    && (w.disableROS ==> v.disableROS)
    && (!w.logStuff ==> !v.logStuff)
    && (w.reversePlay ==> v.reversePlay)
    && (w.disableAllDisplay ==> v.disableAllDisplay)
    && (!w.multiThreading ==> !v.multiThreading)
    && (w.prefetch ==> v.prefetch)
    && (w.debugSaveImages ==> v.debugSaveImages)
  }


  // ---------------------------------------------------------------------------
  // Presets

  /**
   * Presets 0 to 3 install a bundle: real-time pacing exactly for the odd
   * presets, which also preload; a frame window and an iteration range that
   * are never empty; fewer immature than active points; logging off. Any other
   * value changes nothing, and no preset touches a setting outside its bundle.
   */
  lemma PresetBundle(s: Settings, preset: int)
    ensures var r := ApplyPreset(s, preset);
      && (!(0 <= preset <= 3) ==> r == s)
      && (0 <= preset <= 3 ==>
        && (r.playback.playbackSpeed == 0.0 <==> preset % 2 == 0)
        && (r.playback.preload <==> preset % 2 == 1)
        && 1 == r.budget.minOptIterations < r.budget.maxOptIterations
        && 0 < r.budget.minFrames < r.budget.maxFrames
        && 0.0 < r.budget.desiredImmatureDensity < r.budget.desiredPointDensity
        && r.switches == s.switches.(logStuff := false))
      && r.paths == s.paths && r.photometric == s.photometric
      && r.playback.rescale == s.playback.rescale
      && r.playback.startIdx == s.playback.startIdx && r.playback.endIdx == s.playback.endIdx
  {
  }

  /** Presets 0 and 1: the default bundle, differing only in pacing and preloading. */
  lemma DefaultPreset(s: Settings, preset: int)
    requires preset == 0 || preset == 1
    ensures var b := ApplyPreset(s, preset).budget;
      && b.desiredImmatureDensity == 1500.0 && b.desiredPointDensity == 2000.0
      && b.minFrames == 5 && b.maxFrames == 7
      && b.minOptIterations == 1 && b.maxOptIterations == 6
      && b.benchmarkWidth == s.budget.benchmarkWidth && b.benchmarkHeight == s.budget.benchmarkHeight
    ensures var r := ApplyPreset(s, preset);
      && !r.switches.logStuff
      && r.playback.playbackSpeed == (if preset == 0 then 0.0 else 1.0)
      && r.playback.preload == (preset == 1)
    ensures var r := ApplyPreset(s, 0);
      ApplyPreset(s, 1) == r.(playback := r.playback.(playbackSpeed := 1.0, preload := true))
  {
  }

  /** Presets 2 and 3: the fast bundle at 424 x 320, differing only in pacing and preloading. */
  lemma FastPreset(s: Settings, preset: int)
    requires preset == 2 || preset == 3
    ensures ApplyPreset(s, preset).budget == Budget(600.0, 800.0, 4, 6, 4, 1, 424, 320)
    ensures var r := ApplyPreset(s, preset);
      && !r.switches.logStuff
      && r.playback.playbackSpeed == (if preset == 2 then 0.0 else 5.0)
      && r.playback.preload == (preset == 3)
    ensures var r := ApplyPreset(s, 2);
      ApplyPreset(s, 3) == r.(playback := r.playback.(playbackSpeed := 5.0, preload := true))
  {
  }

  /** Applying the same preset twice is the same as applying it once. */
  lemma PresetIdempotent(s: Settings, preset: int)
    ensures ApplyPreset(ApplyPreset(s, preset), preset) == ApplyPreset(s, preset)
  {
  }

  /** A preset never touches loop closing and never lowers a one-way flag. */
  lemma PresetKeeps(s: Settings, preset: int)
    ensures ApplyPreset(s, preset).switches.enableLoopClosing == s.switches.enableLoopClosing
    ensures RaisedFlags(s.switches, ApplyPreset(s, preset).switches)
  {
    PresetBundle(s, preset);
  }

  // ---------------------------------------------------------------------------
  // Directives as text

  /** An argument that starts with `name=` is applied, or ignored, according to that pattern alone. */
  lemma StepByKey(s: Settings, k: Key, arg: string)
    requires StartsWith(arg, Prefix(k))
    ensures Step(s, arg) == (match Scan(k, arg) case None => s case Some(v) => Apply(s, Directive(k, v)))
  {
    ClassifyByKey(k, arg);
  }

  /** The loop-closing directive's effect, spelt out. */
  lemma ApplyLoopClosing(s: Settings, n: int)
    ensures ApplyInt(s, LoopClosing, n) == s.(switches := s.switches.(enableLoopClosing := n == 1))
  {
  }

  /** The index directives' effects, spelt out. */
  lemma ApplyStartEnd(s: Settings, n: int)
    ensures ApplyInt(s, Start, n) == s.(playback := s.playback.(startIdx := n))
    ensures ApplyInt(s, End, n) == s.(playback := s.playback.(endIdx := n))
  {
  }

  /** `name=<n>` for an integer pattern, followed by anything that does not continue the digits. */
  lemma StepIntText(s: Settings, k: Key, n: int, tail: string)
    requires ConversionOf(k) == IntConversion
    requires tail == [] || !IsDigit(tail[0])
    ensures Step(s, Prefix(k) + IntText(n) + tail) == ApplyInt(s, k, n)
  {
    var arg := Prefix(k) + IntText(n) + tail;
    assert arg == Prefix(k) + (IntText(n) + tail);
    ReadIntText(n, tail);
    ScanInt(k, IntText(n) + tail, n);
    StepByKey(s, k, arg);
  }

  /**
   * The one-way flags: `name=<n>` raises its flag (for `noros`, both
   * `disableROS` and `disableReconfigure`) when `n` is 1, and changes nothing
   * for any other integer.
   */
  lemma OneWayFlag(s: Settings, k: Key, n: int, tail: string)
    requires OneWay(k)
    requires tail == [] || !IsDigit(tail[0])
    ensures Step(s, Prefix(k) + IntText(n) + tail) == if n == 1 then s.(switches := Raise(s.switches, k)) else s
  {
    StepIntText(s, k, n, tail);
  }

  /** Raising a one-way flag lowers none of them and leaves loop closing alone. */
  lemma RaiseMonotone(w: Switches, k: Key)
    requires OneWay(k)
    ensures RaisedFlags(w, Raise(w, k))
    ensures Raise(w, k).enableLoopClosing == w.enableLoopClosing
  {
    match k
    case SampleOutput =>
    case Quiet =>
    case NoRos =>
    case NoLog =>
    case ReversePlay =>
    case NoGui =>
    case NoMt =>
    case Prefetch =>
    case Save =>
  }

  /** Raising a one-way key puts its flag in the raised state. */
  lemma RaiseSets(w: Switches, k: Key)
    requires OneWay(k)
    ensures IsRaised(Raise(w, k), k)
  {
  }

  /** Raising a flag that is already raised changes nothing. */
  lemma RaiseWhenRaised(w: Switches, k: Key)
    requires OneWay(k) && IsRaised(w, k)
    ensures Raise(w, k) == w
  {
  }

  /** Raising a one-way flag a second time changes nothing. */
  lemma RaiseIdempotent(w: Switches, k: Key)
    requires OneWay(k)
    ensures Raise(Raise(w, k), k) == Raise(w, k)
  {
    RaiseSets(w, k);
    RaiseWhenRaised(Raise(w, k), k);
  }

  /** `rec=<n>` disables reconfiguration when `n` is 0 and changes nothing otherwise. */
  lemma RecOnlyZero(s: Settings, n: int, tail: string)
    requires tail == [] || !IsDigit(tail[0])
    ensures Step(s, Prefix(Rec) + IntText(n) + tail)
         == if n == 0 then s.(switches := s.switches.(disableReconfigure := true)) else s
  {
    StepIntText(s, Rec, n, tail);
  }

  /** `loopclosing=<n>` is two-way: it enables loop closing exactly when `n` is 1, whatever it was before. */
  lemma LoopClosingTwoWay(s: Settings, n: int, tail: string)
    requires tail == [] || !IsDigit(tail[0])
    ensures Step(s, Prefix(LoopClosing) + IntText(n) + tail) == s.(switches := s.switches.(enableLoopClosing := n == 1))
  {
    StepIntText(s, LoopClosing, n, tail);
    ApplyLoopClosing(s, n);
  }

  /** `start=<n>` and `end=<n>` assign the index unconditionally. */
  lemma StartEndAssign(s: Settings, n: int, tail: string)
    requires tail == [] || !IsDigit(tail[0])
    ensures Step(s, Prefix(Start) + IntText(n) + tail) == s.(playback := s.playback.(startIdx := n))
    ensures Step(s, Prefix(End) + IntText(n) + tail) == s.(playback := s.playback.(endIdx := n))
  {
    StepIntText(s, Start, n, tail);
    StepIntText(s, End, n, tail);
    ApplyStartEnd(s, n);
  }

  /** `preset=<n>` is exactly `settingsDefault(n)`. */
  lemma PresetText(s: Settings, n: int, tail: string)
    requires tail == [] || !IsDigit(tail[0])
    ensures Step(s, Prefix(Preset) + IntText(n) + tail) == ApplyPreset(s, n)
  {
    StepIntText(s, Preset, n, tail);
  }

  /**
   * `mode=<n>`: 1 turns photometric calibration off and leaves both affine
   * parameters to be optimised; 2 also fixes them and sets the gradient
   * histogram offset to 3; 0 and every other value change nothing.
   */
  lemma ModeText(s: Settings, n: int, tail: string)
    requires tail == [] || !IsDigit(tail[0])
    ensures var r := Step(s, Prefix(Mode) + IntText(n) + tail);
      && r.(photometric := s.photometric) == s
      && (n == 1 ==> r.photometric == s.photometric.(photometricCalibration := 0, affineOptModeA := 0.0, affineOptModeB := 0.0))
      && (n == 2 ==> r.photometric == Photometric(0, -1.0, -1.0, 3.0))
      && (n != 1 && n != 2 ==> r == s)
  {
    StepIntText(s, Mode, n, tail);
  }

  /** A path directive's effect, spelt out. */
  lemma ApplyPath(s: Settings, k: Key, w: string)
    requires ConversionOf(k) == WordConversion
    ensures Apply(s, Directive(k, WordValue(w))) == s.(paths := AssignPath(s.paths, k, w))
  {
  }

  /**
   * A path argument `name=<word>` replaces that path with the word,
   * unconditionally; white space ends the word.
   */
  lemma PathAssign(s: Settings, k: Key, w: string, tail: string)
    requires ConversionOf(k) == WordConversion
    requires w != [] && NoSpace(w)
    requires tail == [] || IsSpace(tail[0])
    ensures Step(s, Prefix(k) + w + tail) == s.(paths := AssignPath(s.paths, k, w))
  {
    var arg := Prefix(k) + w + tail;
    assert arg == Prefix(k) + (w + tail);
    ReadWordText(w, tail);
    ScanWord(k, w + tail, w);
    StepByKey(s, k, arg);
    ApplyPath(s, k, w);
  }

  /** Assigning a path sets exactly that path and keeps the other five. */
  lemma AssignPathOnly(p: Paths, k: Key, w: string, k': Key)
    requires ConversionOf(k) == WordConversion && ConversionOf(k') == WordConversion
    ensures PathOf(AssignPath(p, k, w), k') == if k' == k then w else PathOf(p, k')
  {
  }

  /** A real-valued directive's effect, spelt out. */
  lemma ApplyReal(s: Settings, k: Key, x: real)
    requires ConversionOf(k) == FloatConversion
    ensures Apply(s, Directive(k, FloatValue(x))) == s.(playback := AssignReal(s.playback, k, x))
  {
  }

  /** `speed=<n>` for a whole number `n` sets the playback speed to `n` and nothing else. */
  lemma SpeedWhole(s: Settings, n: nat, tail: string)
    requires tail == [] || (!IsDigit(tail[0]) && tail[0] != '.')
    ensures Step(s, Prefix(Speed) + Decimal(n) + tail) == s.(playback := s.playback.(playbackSpeed := n as real))
  {
    var arg := Prefix(Speed) + Decimal(n) + tail;
    assert arg == Prefix(Speed) + (Decimal(n) + tail);
    ReadFloatWhole(n, tail);
    ScanFloat(Speed, Decimal(n) + tail, n as real);
    StepByKey(s, Speed, arg);
    ApplyReal(s, Speed, n as real);
  }

  /** A known name followed by a value its conversion cannot read is ignored like an unknown argument. */
  lemma MalformedIsIgnored(s: Settings, k: Key, arg: string)
    requires StartsWith(arg, Prefix(k)) && Scan(k, arg).None?
    ensures Classify(arg).None?
    ensures Step(s, arg) == s
  {
    ClassifyByKey(k, arg);
  }

  /** An argument that starts with no pattern's `name=` is ignored. */
  lemma UnknownIsIgnored(s: Settings, arg: string)
    requires forall k: Key :: !StartsWith(arg, Prefix(k))
    ensures Classify(arg).None?
    ensures Step(s, arg) == s
  {
  }

  // ---------------------------------------------------------------------------
  // Sequences of arguments

  /** Applying two runs of arguments in turn is applying their concatenation. */
  lemma {:induction false} FoldAppend(s: Settings, a: seq<string>, b: seq<string>)
    ensures Fold(s, a + b) == Fold(Fold(s, a), b)
  {
    if b == [] {
      assert a + b == a;
    } else {
      var ab := a + b;
      assert ab[..|ab| - 1] == a + b[..|b| - 1];
      assert ab[|ab| - 1] == b[|b| - 1];
      FoldAppend(s, a, b[..|b| - 1]);
    }
  }

  /** The settings after one more argument. */
  lemma FoldSnoc(s: Settings, args: seq<string>, arg: string)
    ensures Fold(s, args + [arg]) == Step(Fold(s, args), arg)
  {
    assert (args + [arg])[..|args|] == args;
  }

  /** A directive other than `speed=` and an in-range `preset=` keeps the playback speed. */
  lemma ApplyKeepsSpeed(s: Settings, d: Directive)
    requires WellFormed(d)
    requires d.key != Speed && !(d.key == Preset && 0 <= d.value.n <= 3)
    ensures Apply(s, d).playback.playbackSpeed == s.playback.playbackSpeed
  {
    if d.key == Preset {
      PresetBundle(s, d.value.n);
    }
  }

  /** Arguments none of which writes the playback speed keep it. */
  lemma {:induction false} FoldKeepsSpeed(s: Settings, args: seq<string>)
    requires forall i :: 0 <= i < |args| ==> !WritesSpeed(args[i])
    ensures Fold(s, args).playback.playbackSpeed == s.playback.playbackSpeed
  {
    if args != [] {
      var mid := Fold(s, args[..|args| - 1]);
      FoldKeepsSpeed(s, args[..|args| - 1]);
      var c := Classify(args[|args| - 1]);
      if c.Some? {
        ApplyKeepsSpeed(mid, c.value);
      }
    }
  }

  /**
   * Later arguments win: the playback speed after all arguments is the value
   * of the last `speed=` argument when nothing after it writes the speed,
   * whatever came before it (a preset included).
   */
  lemma LastSpeedWins(s: Settings, before: seq<string>, arg: string, x: real, after: seq<string>)
    requires Classify(arg) == Some(Directive(Speed, FloatValue(x)))
    requires forall i :: 0 <= i < |after| ==> !WritesSpeed(after[i])
    ensures Fold(s, before + [arg] + after).playback.playbackSpeed == x
  {
    FoldAppend(s, before + [arg], after);
    FoldSnoc(s, before, arg);
    ApplyReal(Fold(s, before), Speed, x);
    FoldKeepsSpeed(Fold(s, before + [arg]), after);
  }

  /** A directive other than `loopclosing=` keeps the loop-closing flag. */
  lemma ApplyKeepsLoopClosing(s: Settings, d: Directive)
    requires WellFormed(d) && d.key != LoopClosing
    ensures Apply(s, d).switches.enableLoopClosing == s.switches.enableLoopClosing
  {
    if d.key == Preset {
      PresetKeeps(s, d.value.n);
    } else if OneWay(d.key) {
      RaiseMonotone(s.switches, d.key);
    }
  }

  /** Arguments none of which is a `loopclosing=` directive keep the loop-closing flag. */
  lemma {:induction false} FoldKeepsLoopClosing(s: Settings, args: seq<string>)
    requires forall i :: 0 <= i < |args| ==> !WritesLoopClosing(args[i])
    ensures Fold(s, args).switches.enableLoopClosing == s.switches.enableLoopClosing
  {
    if args != [] {
      var mid := Fold(s, args[..|args| - 1]);
      FoldKeepsLoopClosing(s, args[..|args| - 1]);
      var c := Classify(args[|args| - 1]);
      if c.Some? {
        ApplyKeepsLoopClosing(mid, c.value);
      }
    }
  }

  /**
   * Loop closing is decided by the last `loopclosing=` directive: after it,
   * and anything that does not write the flag, loop closing is enabled
   * exactly when that directive's value was 1.
   */
  lemma LastLoopClosingWins(s: Settings, before: seq<string>, arg: string, n: int, after: seq<string>)
    requires Classify(arg) == Some(Directive(LoopClosing, IntValue(n)))
    requires forall i :: 0 <= i < |after| ==> !WritesLoopClosing(after[i])
    ensures Fold(s, before + [arg] + after).switches.enableLoopClosing == (n == 1)
  {
    FoldAppend(s, before + [arg], after);
    FoldSnoc(s, before, arg);
    ApplyLoopClosing(Fold(s, before), n);
    FoldKeepsLoopClosing(Fold(s, before + [arg]), after);
  }

  /** Every switch group is related to itself. */
  lemma RaisedFlagsReflexive(w: Switches)
    ensures RaisedFlags(w, w)
  {
  }

  /** No integer directive lowers a one-way flag. */
  lemma ApplyIntRaises(s: Settings, k: Key, n: int)
    requires ConversionOf(k) == IntConversion
    ensures RaisedFlags(s.switches, ApplyInt(s, k, n).switches)
  {
    var w := s.switches;
    if OneWay(k) {
      if n == 1 {
        RaiseMonotone(w, k);
      } else {
        RaisedFlagsReflexive(w);
      }
    } else {
      match k
      case Preset =>
        PresetKeeps(s, n);
      case Rec =>
        RaisedFlagsReflexive(w);
        assert RaisedFlags(w, w.(disableReconfigure := true));
      case LoopClosing =>
        assert RaisedFlags(w, w.(enableLoopClosing := n == 1));
      case Start =>
        RaisedFlagsReflexive(w);
      case End =>
        RaisedFlagsReflexive(w);
      case Mode =>
        RaisedFlagsReflexive(w);
    }
  }

  /** No directive lowers a one-way flag. */
  lemma ApplyRaises(s: Settings, d: Directive)
    requires WellFormed(d)
    ensures RaisedFlags(s.switches, Apply(s, d).switches)
  {
    if ConversionOf(d.key) == IntConversion {
      ApplyIntRaises(s, d.key, d.value.n);
    } else {
      RaisedFlagsReflexive(s.switches);
    }
  }

  /** Raising is transitive over the switch groups. */
  lemma RaisedFlagsTransitive(u: Switches, v: Switches, w: Switches)
    requires RaisedFlags(u, v) && RaisedFlags(v, w)
    ensures RaisedFlags(u, w)
  {
  }

  /** The one-way flags only ever go one way over a whole argument list. */
  lemma {:induction false} FoldRaises(s: Settings, args: seq<string>)
    ensures RaisedFlags(s.switches, Fold(s, args).switches)
  {
    if args == [] {
      RaisedFlagsReflexive(s.switches);
    } else {
      var mid := Fold(s, args[..|args| - 1]);
      FoldRaises(s, args[..|args| - 1]);
      var c := Classify(args[|args| - 1]);
      if c.Some? {
        ApplyRaises(mid, c.value);
        RaisedFlagsTransitive(s.switches, mid.switches, Fold(s, args).switches);
      }
    }
  }

  /**
   * `preset=<p> speed=<n>`: the later speed overrides the preset's pacing,
   * while the rest of the preset's bundle stays in place; for example
   * `preset=1 speed=0` ends with speed 0, preloading on.
   */
  lemma PresetThenSpeed(s: Settings, p: int, n: nat, tail1: string, tail2: string)
    requires tail1 == [] || !IsDigit(tail1[0])
    requires tail2 == [] || (!IsDigit(tail2[0]) && tail2[0] != '.')
    ensures var r := Fold(s, [Prefix(Preset) + IntText(p) + tail1, Prefix(Speed) + Decimal(n) + tail2]);
      && r.playback.playbackSpeed == n as real
      && r == ApplyPreset(s, p).(playback := ApplyPreset(s, p).playback.(playbackSpeed := n as real))
  {
    var a1 := Prefix(Preset) + IntText(p) + tail1;
    var a2 := Prefix(Speed) + Decimal(n) + tail2;
    PresetText(s, p, tail1);
    SpeedWhole(ApplyPreset(s, p), n, tail2);
    FoldSnoc(s, [], a1);
    FoldSnoc(s, [a1], a2);
    assert [a1, a2] == [a1] + [a2];
  }
}
