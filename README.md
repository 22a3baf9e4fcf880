# LDSO ROS wrapper: command-line configuration, in Dafny

This project models how the LDSO live ROS wrapper (`LDSO/LDSO_ROS_Wrapper/main.cpp`) turns its
command line into the configuration the SLAM system runs with, and how its image callback
feeds frames to that system.

- **`Scanf`** covers the three `sscanf` conversions the argument parser relies on:
  - `%d`: white space, an optional sign, at least one digit;
  - `%s`: white space, then a non-empty run of non-white-space characters;
  - `%f`: white space, an optional sign, digits with an optional fraction, as an exact decimal.

  Round trips are proved for:
  - every integer under `%d`;
  - every white-space-free word under `%s`;
  - under `%f`, every whole number, every negative whole number, and every non-negative
    number written with a fraction.
- **`Directives`** is the table of the 23 `name=%c` patterns `parseArgument` tries, in the
  order it tries them. `Scan` is one `sscanf` attempt and `Classify` is the first pattern that
  matches. The `name=` literals are proved mutually exclusive, so an argument is decided by
  the one pattern whose name it starts with.
- **`Profile`** holds the `Settings` record, which groups every global the parser writes.
  It also holds the reference semantics:
  - `ApplyPreset` is `settingsDefault`;
  - `Apply`/`Step` are one `parseArgument` call;
  - `Fold` is the argument loop.

  It proves, for each argument kind:
  - one-way flags raise on 1 and otherwise do nothing;
  - `rec=0` is the only value that disables reconfiguration;
  - `loopclosing=` goes both ways;
  - `start=`/`end=` and the paths assign unconditionally;
  - each preset's bundle;
  - the effects of `mode=`.

  Over whole command lines it proves "later arguments win" for the speed and for loop
  closing, and that no one-way flag is ever lowered.
- **`Resolver`** is the imperative program:
  - the class `Globals` holds the globals, updated in place;
  - `SettingsDefault` and `ParseArgument` are proved against the `Profile` functions.
    `ParseArgument` carries out the directive `Classify` finds: the first pattern, in source
    order, whose `sscanf` succeeds;
  - `ResolveArguments` is the start of `main`, in four steps:
    - `ros::init` takes out the ROS remapping arguments (`name:=value`);
    - the argument loop runs, with its invariant;
    - the loop-closing/point-selection conflict is checked;
    - `linearizeOperation = (playbackSpeed == 0)` is set.
- **`Ingestion`** covers the image callback `vidCb` and its `frameID` counter. A
  `MappingEngine` records the calls it receives. The lemmas prove that frames reach the SLAM
  system in arrival order, numbered 0, 1, 2, … without gaps, each followed by a wait for mapping.
- **`Lifecycle`** is `main` end to end. `Launch` gives the outcome:
  - the conflict, where `main` calls `exit(-1)` before the SLAM system exists;
  - linearisation;
  - whether a viewer is shown;
  - the calls the SLAM system receives for the image stream;
  - the two trajectory files;
  - how the run ends (see Findings).

  `RunProgram` is the same sequence written imperatively. It runs `ResolveArguments`, then
  builds the SLAM system, then delivers each image to `LiveDriver.VidCb`. It is proved equal
  to `Launch`.

The setting `setting_pointSelection` and the initial values of the SLAM engine's own
settings are parameters: their definitions live in the engine, which is not part of this model.

## Model

| member | source | states |
|---|---|---|
| Scanf.ReadIntText | LDSO/LDSO_ROS_Wrapper/main.cpp:105 | `%d` round trip: scanning the printed form of any integer, followed by anything but a digit, yields that integer |
| Scanf.ReadWordText | LDSO/LDSO_ROS_Wrapper/main.cpp:200 | `%s` round trip: a non-empty word without white space, followed by nothing or white space, is read back unchanged |
| Scanf.ReadWordIsWord | LDSO/LDSO_ROS_Wrapper/main.cpp:200 | whatever `%s` reads is non-empty and contains no white space |
| Scanf.ReadFloatWhole | LDSO/LDSO_ROS_Wrapper/main.cpp:230 | `%f` on the decimal spelling of a natural number, not followed by a digit or point, yields that number |
| Scanf.SkipSpaceSkipsSpace | LDSO/LDSO_ROS_Wrapper/main.cpp:105 | the conversions skip exactly the leading white space and keep the rest |
| Scanf.DigitRunIsMaximal | LDSO/LDSO_ROS_Wrapper/main.cpp:105 | the digits `%d` consumes are all digits and stop exactly at the first non-digit |
| Scanf.WordRunIsMaximal | LDSO/LDSO_ROS_Wrapper/main.cpp:200 | the word `%s` consumes stops exactly at the first white space |
| Scanf.DecimalValue | LDSO/LDSO_ROS_Wrapper/main.cpp:105 | the value of the decimal spelling of `n` is `n` |
| Scanf.Decimal | LDSO/LDSO_ROS_Wrapper/main.cpp:105 | the decimal spelling of a number is a non-empty string of digits |
| Scanf.ReadInt | LDSO/LDSO_ROS_Wrapper/main.cpp:105 | `%d`: skip white space, read an optional sign and at least one digit, ignore the rest. Its round trip is `ReadIntText` |
| Scanf.ReadWord | LDSO/LDSO_ROS_Wrapper/main.cpp:200 | `%s`: skip white space, read a non-empty run of non-white-space characters. Its properties are `ReadWordIsWord` and `ReadWordText` |
| Scanf.ReadFloat | LDSO/LDSO_ROS_Wrapper/main.cpp:230 | `%f`: skip white space, read an optional sign and digits with an optional fraction, as an exact decimal. Its round trips are `ReadFloatWhole`, `ReadFloatNegative` and `ReadFloatFraction` |
| Scanf.ReadFloatNegative | LDSO/LDSO_ROS_Wrapper/main.cpp:230 | `%f` on a minus sign and the decimal spelling of `n`, not followed by a digit or point, yields `-n` |
| Scanf.ReadFloatFraction | LDSO/LDSO_ROS_Wrapper/main.cpp:230-240 | `%f` on `w.ds` followed by a non-digit yields `w` plus `Value(ds)` divided by 10 to the number of digits of `ds` |
| Directives.Scan | LDSO/LDSO_ROS_Wrapper/main.cpp:105 | an `sscanf(arg, "name=%c")` that returns 1 found the literal `name=` at the start and converted a value of the pattern's kind |
| Directives.FirstMatchIndex | LDSO/LDSO_ROS_Wrapper/main.cpp:105-282 | the branch taken is the first whose `sscanf` succeeds: every earlier one failed |
| Directives.FirstMatch | LDSO/LDSO_ROS_Wrapper/main.cpp:105-284 | nothing is recognised exactly when every pattern fails; otherwise the earliest matching pattern, with its converted value |
| Directives.Classify | LDSO/LDSO_ROS_Wrapper/main.cpp:105-284 | what `parseArgument` makes of one argument: the first match over the patterns in source order. Its properties are `FirstMatch` and `ClassifyByKey` |
| Directives.NamesDistinct | LDSO/LDSO_ROS_Wrapper/main.cpp:105-264 | the 23 pattern names are pairwise different and none contains `=` |
| Directives.InOrder | LDSO/LDSO_ROS_Wrapper/main.cpp:105-282 | every pattern is tried |
| Directives.SameNameBeforeEquals | LDSO/LDSO_ROS_Wrapper/main.cpp:105-264 | two `name=` literals without `=` in the names that both start one argument are equal |
| Directives.PrefixesExclusive | LDSO/LDSO_ROS_Wrapper/main.cpp:105-264 | no argument starts with two different patterns' literals |
| Directives.ClassifyByKey | LDSO/LDSO_ROS_Wrapper/main.cpp:105-284 | an argument starting with `name=` is decided by that pattern alone, and is unrecognised when its conversion fails |
| Profile.Startup | LDSO/LDSO_ROS_Wrapper/main.cpp:31-48 | the wrapper's globals start at speed 0, no preload, indices 0 and 100000, rescale 1, output `./results.txt`, and its own four switches off |
| Profile.ApplyPreset | LDSO/LDSO_ROS_Wrapper/main.cpp:50-97 | `settingsDefault(preset)` as a function on the settings. Its properties are `PresetBundle`, `DefaultPreset`, `FastPreset`, `PresetIdempotent` and `PresetKeeps` |
| Profile.Raise | LDSO/LDSO_ROS_Wrapper/main.cpp:105-262 | the flag a one-way key raises. Its properties are `RaiseSets`, `RaiseMonotone` and `RaiseIdempotent` |
| Profile.ApplyMode | LDSO/LDSO_ROS_Wrapper/main.cpp:264-282 | the photometric effect of `mode=<n>`. Its properties are `ModeText` |
| Profile.ApplyInt | LDSO/LDSO_ROS_Wrapper/main.cpp:105-198 | the integer branches of `parseArgument`. Its properties are `OneWayFlag`, `RecOnlyZero`, `LoopClosingTwoWay`, `StartEndAssign` and `PresetText` |
| Profile.Apply | LDSO/LDSO_ROS_Wrapper/main.cpp:105-282 | the branch of a recognised directive. Its properties are `ApplyRaises`, `ApplyKeepsSpeed` and `ApplyKeepsLoopClosing` |
| Profile.Step | LDSO/LDSO_ROS_Wrapper/main.cpp:99-285 | one `parseArgument` call: the directive `Classify` finds, or no change. Its properties are `StepByKey`, `MalformedIsIgnored` and `UnknownIsIgnored` |
| Profile.Fold | LDSO/LDSO_ROS_Wrapper/main.cpp:315-316 | the argument loop: each argument in turn. Its properties are `FoldAppend`, `FoldRaises`, `LastSpeedWins` and `LastLoopClosingWins` |
| Profile.PresetBundle | LDSO/LDSO_ROS_Wrapper/main.cpp:50-97 | presets 0-3: real-time exactly for odd presets, which preload; non-empty frame window and iteration range; fewer immature than active points; logging off; other values change nothing; nothing outside the bundle changes |
| Profile.DefaultPreset | LDSO/LDSO_ROS_Wrapper/main.cpp:52-70 | presets 0 and 1 set 1500/2000 points, frames 5-7, iterations 1-6, logging off, speed 0 or 1 and preloading for 1, and differ only in pacing |
| Profile.FastPreset | LDSO/LDSO_ROS_Wrapper/main.cpp:72-94 | presets 2 and 3 set 600/800 points, frames 4-6, iterations 1-4, 424 x 320, logging off, speed 0 or 5 and preloading for 3 |
| Profile.PresetIdempotent | LDSO/LDSO_ROS_Wrapper/main.cpp:50-97 | applying a preset twice is applying it once |
| Profile.PresetKeeps | LDSO/LDSO_ROS_Wrapper/main.cpp:50-97 | a preset never touches loop closing and never lowers a one-way flag |
| Profile.StepByKey | LDSO/LDSO_ROS_Wrapper/main.cpp:99-285 | an argument starting with `name=` is applied, or ignored, by that pattern alone |
| Profile.StepIntText | LDSO/LDSO_ROS_Wrapper/main.cpp:105-198 | `name=<n>` for an integer pattern applies that pattern's branch with `n` |
| Profile.OneWayFlag | LDSO/LDSO_ROS_Wrapper/main.cpp:105-262 | a one-way flag argument raises its flag (both flags for `noros`) when the value is 1 and changes nothing otherwise |
| Profile.RaiseMonotone | LDSO/LDSO_ROS_Wrapper/main.cpp:105-262 | raising one flag lowers no other and leaves loop closing alone |
| Profile.RaiseSets | LDSO/LDSO_ROS_Wrapper/main.cpp:105-262 | after raising, the flag is in its raised state |
| Profile.RaiseWhenRaised | LDSO/LDSO_ROS_Wrapper/main.cpp:105-262 | raising a flag that is already raised changes nothing |
| Profile.RaiseIdempotent | LDSO/LDSO_ROS_Wrapper/main.cpp:105-262 | repeating a one-way flag argument changes nothing |
| Profile.RecOnlyZero | LDSO/LDSO_ROS_Wrapper/main.cpp:127-133 | `rec=<n>` disables reconfiguration exactly when `n` is 0, otherwise nothing |
| Profile.LoopClosingTwoWay | LDSO/LDSO_ROS_Wrapper/main.cpp:190-198 | `loopclosing=<n>` enables loop closing exactly when `n` is 1 and disables it otherwise, whatever it was |
| Profile.StartEndAssign | LDSO/LDSO_ROS_Wrapper/main.cpp:180-189 | `start=`/`end=` assign the index unconditionally and change nothing else |
| Profile.PresetText | LDSO/LDSO_ROS_Wrapper/main.cpp:121-124 | `preset=<n>` is exactly `settingsDefault(n)` |
| Profile.ModeText | LDSO/LDSO_ROS_Wrapper/main.cpp:264-282 | `mode=1` turns photometric calibration off with affine modes 0; `mode=2` also fixes them at -1 with offset 3; other values change nothing; nothing outside the photometric group changes |
| Profile.PathAssign | LDSO/LDSO_ROS_Wrapper/main.cpp:200-228 | a path argument replaces that path with the word read, unconditionally |
| Profile.AssignPathOnly | LDSO/LDSO_ROS_Wrapper/main.cpp:200-246 | assigning a path sets exactly that path and keeps the other five |
| Profile.SpeedWhole | LDSO/LDSO_ROS_Wrapper/main.cpp:236-240 | `speed=<n>` sets the playback speed to `n` and nothing else |
| Profile.MalformedIsIgnored | LDSO/LDSO_ROS_Wrapper/main.cpp:105-284 | a known name with an unreadable value is unrecognised and changes nothing |
| Profile.UnknownIsIgnored | LDSO/LDSO_ROS_Wrapper/main.cpp:284 | an argument starting with no pattern's name is unrecognised and changes nothing |
| Profile.FoldAppend | LDSO/LDSO_ROS_Wrapper/main.cpp:315-316 | processing two runs of arguments in turn is processing their concatenation |
| Profile.ApplyKeepsSpeed | LDSO/LDSO_ROS_Wrapper/main.cpp:99-285 | only `speed=` and an in-range `preset=` change the playback speed |
| Profile.FoldKeepsSpeed | LDSO/LDSO_ROS_Wrapper/main.cpp:315-316 | arguments none of which writes the speed keep it |
| Profile.LastSpeedWins | LDSO/LDSO_ROS_Wrapper/main.cpp:315-316 | the final speed is that of the last `speed=` argument when nothing after it writes the speed |
| Profile.ApplyKeepsLoopClosing | LDSO/LDSO_ROS_Wrapper/main.cpp:99-285 | only `loopclosing=` changes the loop-closing flag |
| Profile.FoldKeepsLoopClosing | LDSO/LDSO_ROS_Wrapper/main.cpp:315-316 | arguments without `loopclosing=` keep the flag |
| Profile.LastLoopClosingWins | LDSO/LDSO_ROS_Wrapper/main.cpp:315-316 | the last `loopclosing=<n>` decides the flag: on exactly when `n` is 1 |
| Profile.ApplyIntRaises | LDSO/LDSO_ROS_Wrapper/main.cpp:105-198 | no integer directive lowers a one-way flag |
| Profile.ApplyRaises | LDSO/LDSO_ROS_Wrapper/main.cpp:99-285 | no directive lowers a one-way flag |
| Profile.FoldRaises | LDSO/LDSO_ROS_Wrapper/main.cpp:315-316 | over a whole command line the one-way flags only go up |
| Profile.PresetThenSpeed | LDSO/LDSO_ROS_Wrapper/main.cpp:121-124 | `preset=<p> speed=<n>` ends at speed `n` with the rest of preset `p`'s bundle kept |
| Resolver.RosArgs | LDSO/LDSO_ROS_Wrapper/main.cpp:311 | what `ros::init` leaves of `argv`: the arguments that are not remappings, in order. Its properties are `RosArgsDropsRemappings`, `RosArgsAppend` and `RosArgsKeepsPlain` |
| Resolver.RosArgsDropsRemappings | LDSO/LDSO_ROS_Wrapper/main.cpp:311 | no argument containing `:=` survives `ros::init` |
| Resolver.RosArgsAppend | LDSO/LDSO_ROS_Wrapper/main.cpp:311 | `ros::init` decides argument by argument: what it keeps of `a + b` is what it keeps of `a` followed by what it keeps of `b` |
| Resolver.RosArgsKeepsPlain | LDSO/LDSO_ROS_Wrapper/main.cpp:311 | a command line without remapping arguments is left unchanged |
| Resolver.CommandArgs | LDSO/LDSO_ROS_Wrapper/main.cpp:311-316 | the arguments parsed are what `ros::init` leaves, without the program name; none is a remapping, and there are fewer than in `argv` |
| Resolver.CommandArgsAfterName | LDSO/LDSO_ROS_Wrapper/main.cpp:311-316 | after a program name that is not a remapping, the arguments parsed are what `ros::init` keeps of the rest |
| Resolver.Resolve | LDSO/LDSO_ROS_Wrapper/main.cpp:315-351 | the start-up outcome: the conflict exit exactly when the folded settings enable loop closing and point selection is not 1, else readiness with `linearizeOperation` set exactly at speed 0. Its properties are the lemmas below |
| Resolver.Globals.constructor | LDSO/LDSO_ROS_Wrapper/main.cpp:31-48 | the globals start as `Startup` says |
| Resolver.Globals.SettingsDefault | LDSO/LDSO_ROS_Wrapper/main.cpp:50-97 | updating the globals in place yields exactly `ApplyPreset` of the old values |
| Resolver.Globals.RaiseFlag | LDSO/LDSO_ROS_Wrapper/main.cpp:105-262 | a one-way branch raises its flag and changes no other global |
| Resolver.Globals.SelectMode | LDSO/LDSO_ROS_Wrapper/main.cpp:264-282 | the `mode=` branch changes only the photometric globals, as `ApplyMode` says |
| Resolver.Globals.ExecuteInt | LDSO/LDSO_ROS_Wrapper/main.cpp:105-198 | the integer branches update the globals exactly as `ApplyInt` |
| Resolver.Globals.ExecutePath | LDSO/LDSO_ROS_Wrapper/main.cpp:200-246 | a path branch sets that one path |
| Resolver.Globals.ExecuteReal | LDSO/LDSO_ROS_Wrapper/main.cpp:230-240 | `rescale=`/`speed=` set that one playback value |
| Resolver.Globals.Execute | LDSO/LDSO_ROS_Wrapper/main.cpp:105-282 | a recognised directive updates the globals exactly as `Apply` |
| Resolver.Globals.ParseArgument | LDSO/LDSO_ROS_Wrapper/main.cpp:99-285 | reports recognition exactly when a pattern matches, and updates the globals exactly as `Step` |
| Resolver.Globals.ResolveArguments | LDSO/LDSO_ROS_Wrapper/main.cpp:311-351 | after `ros::init` and the loop, the globals are the fold of the arguments parsed; the outcome is the conflict exit or readiness with `linearizeOperation`, as `Resolve` says |
| Resolver.ConflictDecidedByLastLoopClosing | LDSO/LDSO_ROS_Wrapper/main.cpp:319-323 | the program stops exactly when the last `loopclosing=` was 1 and point selection is not 1 |
| Resolver.ConflictWithoutLoopClosingArgument | LDSO/LDSO_ROS_Wrapper/main.cpp:319-323 | without `loopclosing=`, the engine's own flag and point selection decide the stop |
| Resolver.LinearizedByLastSpeed | LDSO/LDSO_ROS_Wrapper/main.cpp:351 | the run is linearised exactly when the last `speed=` asked for 0 |
| Resolver.NoArgumentsLinearized | LDSO/LDSO_ROS_Wrapper/main.cpp:46 | with no arguments the run is linearised with the start-up settings unless the engine's own loop closing conflicts |
| Resolver.PresetOneThenSpeedZero | LDSO/LDSO_ROS_Wrapper/main.cpp:351 | `preset=1 speed=0` runs linearised, preloading, with preset 1's budget |
| Ingestion.MappingEngine.AddActiveFrame | LDSO/LDSO_ROS_Wrapper/main.cpp:302 | the SLAM system records the submitted frame after the earlier calls |
| Ingestion.MappingEngine.BlockUntilMappingIsFinished | LDSO/LDSO_ROS_Wrapper/main.cpp:306 | the SLAM system records the wait for mapping after the earlier calls |
| Ingestion.Handshake | LDSO/LDSO_ROS_Wrapper/main.cpp:291-307 | `k` callbacks make `2k` calls on the SLAM system |
| Ingestion.Numbered | LDSO/LDSO_ROS_Wrapper/main.cpp:288-302 | the `i`th frame carries the `i`th timestamp and number `i` |
| Ingestion.HandshakeShape | LDSO/LDSO_ROS_Wrapper/main.cpp:291-307 | the `i`th callback submits the `i`th image under number `i`, then waits for mapping |
| Ingestion.SubmittedInOrder | LDSO/LDSO_ROS_Wrapper/main.cpp:288-307 | the frames received are exactly the images in arrival order, numbered from 0 |
| Ingestion.NumbersIncrease | LDSO/LDSO_ROS_Wrapper/main.cpp:301-302 | frame numbers strictly increase, so no two frames share one |
| Ingestion.LiveDriver.constructor | LDSO/LDSO_ROS_Wrapper/main.cpp:289 | the counter starts at 0 with no frames submitted |
| Ingestion.LiveDriver.VidCb | LDSO/LDSO_ROS_Wrapper/main.cpp:291-307 | one image is submitted under the current counter with its own timestamp, the counter advances by one, then mapping is awaited; the history invariant is kept |
| Lifecycle.LaunchAsWritten | LDSO/LDSO_ROS_Wrapper/main.cpp:319-387 | `main` as written, after start-up. Its discrepancy is `NoGuiDereferencesNullAsWritten` |
| Lifecycle.Launch | LDSO/LDSO_ROS_Wrapper/main.cpp:319-387 | `main` with the null-viewer call corrected. Its properties are `SubmittedFrames`, `LoopClosingConflictSubmitsNothing`, `LaunchNeverDereferencesNull` and `LaunchDiffersOnlyWithoutViewer` |
| Lifecycle.RunProgram | LDSO/LDSO_ROS_Wrapper/main.cpp:308-387 | resolving the arguments, building the SLAM system and feeding it each image through `VidCb` gives exactly the run `Launch` describes; afterwards the globals hold `Fold` of the start-up settings over the arguments `ros::init` keeps, and the trajectory files are named from them as at 378-379 |
| Lifecycle.SubmittedFrames | LDSO/LDSO_ROS_Wrapper/main.cpp:319-387 | after the conflict no frame is ever submitted. Otherwise the SLAM system receives every image in arrival order, numbered from 0, in `2k` calls for `k` images |
| Lifecycle.LoopClosingConflictSubmitsNothing | LDSO/LDSO_ROS_Wrapper/main.cpp:319-323 | a last `loopclosing=1` with point selection other than 1 ends in `exit(-1)` with no frame submitted, whatever the stream |
| Lifecycle.LaunchNeverDereferencesNull | LDSO/LDSO_ROS_Wrapper/main.cpp:358-387 | corrected ending: never uses a missing viewer, and saves the point cloud exactly when a viewer was shown |
| Lifecycle.LaunchDiffersOnlyWithoutViewer | LDSO/LDSO_ROS_Wrapper/main.cpp:358-387 | the correction changes only the ending of runs without a viewer |
| Lifecycle.NoGuiResolves | LDSO/LDSO_ROS_Wrapper/main.cpp:159-165 | `nogui=1` disables display and keeps loop closing |
| Lifecycle.NoGuiDereferencesNullAsWritten | LDSO/LDSO_ROS_Wrapper/main.cpp:387 | as written, `nogui=1` without a conflict ends by saving through a viewer that does not exist |
| Lifecycle.NoGuiSkipsPointCloud | LDSO/LDSO_ROS_Wrapper/main.cpp:358-387 | corrected, `nogui=1` without a conflict ends without a point cloud |

## Left out

- ROS initialisation is modelled only by its removal of remapping arguments (`RosArgs`).
  That removal follows the ROS client library's `ros::init`; the library itself is not part
  of this model.
- The node name, the subscriber, `ros::spin` and the worker thread are left out. The image
  stream is the sequence of callback timestamps, and `RunProgram` delivers it in order in one
  thread. The subscriber's queue holds one image (main.cpp:373), so images published while
  `vidCb` waits for mapping are dropped by ROS before any callback runs. "Every image in
  arrival order" in `SubmittedFrames` and `SubmittedInOrder` means every image that reaches
  the callback.
- The viewer's `run` loop, camera undistortion (`Undistort`, `setGlobalCalib`), vocabulary
  loading and the gamma function are left out: they are foreign calls into the engine.
- Image pixels are not modelled. A submitted frame is its timestamp and its number.
- Console and log output (`printf`, `LOG`, `std::cout`) and the `setting_showLoopClosing`
  warning are left out: they change no setting.
- The `system("rm -rf images_out")` / `mkdir` calls of `save=1` are left out. They touch the
  file system and their results are ignored.
- `Scanf.ReadFloat`: does not model `%f`'s exponents, `inf`, `nan`, hexadecimal forms or
  rounding to `float`. The value is the exact decimal. Exponent text is not rejected either:
  the digits before the `e` are read and the rest is ignored. So `speed=1e-50` is read as 1,
  while C reads 1e-50, which rounds to the float 0 and makes the run linearised (main.cpp:351);
  the model does not linearise it.
- `Scanf.ReadInt`: does not model overflow of an `int` outside 32 bits. Values are unbounded.
- `Scanf.ReadWord`: does not model overflow of the 1000-byte buffer for words of 1000
  characters or more. Any length is accepted.
- `Ingestion.LiveDriver.VidCb`: does not model the 32-bit wrap-around of `frameID`.
- `Profile.Startup`: the engine's own settings and `setting_pointSelection` are parameters,
  because their defaults are defined in the engine, which is not part of this model.
- `Resolver.Globals.ParseArgument`: the chain of `if (1 == sscanf(...))` attempts is modelled
  as the ordered first-match `Classify` over a table of patterns in the same order, then one
  branch. The failed attempts before the match change nothing and are not modelled one by one.
- `Scanf.ReadFloatFraction`: no round trip is proved for a negative number with a fraction.
- `Lifecycle.Launch`: the conflict exit records the argument of `exit(-1)`. The status the
  parent process sees (255) is not modelled.
- Printing the trajectories is left out. The model records only the two file names.

## Findings

| source | as written | input that shows it | evidently intended | confidence | as-written member | corrected member |
|---|---|---|---|---|---|---|
| LDSO/LDSO_ROS_Wrapper/main.cpp:387 | `viewer->saveAsPLYFile(...)` is called unconditionally, but `viewer` stays null when display is disabled (358-368) | `nogui=1` with loop closing off (or point selection 1), after the image stream ends | save the point cloud only when a viewer exists | not executed | Lifecycle.NoGuiDereferencesNullAsWritten | Lifecycle.NoGuiSkipsPointCloud |
