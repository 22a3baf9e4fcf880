/**
 * The argument patterns `parseArgument` tries, in the order it tries them.
 * Each pattern is a literal `name=` followed by one `sscanf` conversion; an
 * argument is recognised by the FIRST pattern whose `sscanf` returns 1, and
 * an argument no pattern recognises is reported and ignored.
 */
module Directives {
  import opened Scanf

  /** One pattern per `sscanf` attempt in `parseArgument`. */
  datatype Key =
    | SampleOutput | Quiet | Preset | Rec | NoRos | NoLog | ReversePlay | NoGui | NoMt | Prefetch
    | Start | End | LoopClosing | Files | Vocab | Calib | Vignette | Gamma | Rescale | Speed
    | Output | Save | Mode

  /** The conversion that follows `name=` in a pattern. */
  datatype Conversion = IntConversion | WordConversion | FloatConversion

  /** A converted value; its constructor always agrees with the pattern's conversion. */
  datatype Value = IntValue(n: int) | WordValue(w: string) | FloatValue(x: real)

  /** A recognised argument: the pattern that matched and the value it converted. */
  datatype Directive = Directive(key: Key, value: Value)

  function Name(k: Key): string {
    match k
    case SampleOutput => "sampleoutput"
    case Quiet => "quiet"
    case Preset => "preset"
    case Rec => "rec"
    case NoRos => "noros"
    case NoLog => "nolog"
    case ReversePlay => "reversePlay"
    case NoGui => "nogui"
    case NoMt => "nomt"
    case Prefetch => "prefetch"
    case Start => "start"
    case End => "end"
    case LoopClosing => "loopclosing"
    case Files => "files"
    case Vocab => "vocab"
    case Calib => "calib"
    case Vignette => "vignette"
    case Gamma => "gamma"
    case Rescale => "rescale"
    case Speed => "speed"
    case Output => "output"
    case Save => "save"
    case Mode => "mode"
  }

  /** The literal part of the pattern, which the argument must start with. */
  function Prefix(k: Key): string {
    Name(k) + "="
  }

  function ConversionOf(k: Key): Conversion {
    match k
    case Files | Vocab | Calib | Vignette | Gamma | Output => WordConversion
    case Rescale | Speed => FloatConversion
    case _ => IntConversion
  }

  /** The order in which `parseArgument` tries the patterns. */
  const Order: seq<Key> :=
    [SampleOutput, Quiet, Preset, Rec, NoRos, NoLog, ReversePlay, NoGui, NoMt, Prefetch,
     Start, End, LoopClosing, Files, Vocab, Calib, Vignette, Gamma, Rescale, Speed,
     Output, Save, Mode]

  /** A value of the kind the pattern of `k` converts. */
  predicate Conforms(k: Key, v: Value) {
    match ConversionOf(k)
    case IntConversion => v.IntValue?
    case WordConversion => v.WordValue?
    case FloatConversion => v.FloatValue?
  }

  predicate WellFormed(d: Directive) {
    Conforms(d.key, d.value)
  }

  predicate StartsWith(s: string, p: string) {
    |p| <= |s| && s[..|p|] == p
  }

  /** `sscanf(arg, "<name>=%<c>", &v) == 1`: the value converted, if any. */
  function Scan(k: Key, arg: string): (r: Option<Value>)
    ensures r.Some? ==> StartsWith(arg, Prefix(k)) && Conforms(k, r.value)
  {
    var p := Prefix(k);
    if !StartsWith(arg, p) then None
    else
      var rest := arg[|p|..];
      match ConversionOf(k)
      case IntConversion => (match ReadInt(rest) case Some(n) => Some(IntValue(n)) case None => None)
      case WordConversion => (match ReadWord(rest) case Some(w) => Some(WordValue(w)) case None => None)
      case FloatConversion => (match ReadFloat(rest) case Some(x) => Some(FloatValue(x)) case None => None)
  }

  /**
   * The position of the first of `keys` whose pattern matches `arg`, or
   * `|keys|` when none does: every earlier pattern fails, and the one found
   * succeeds.
   */
  function FirstMatchIndex(keys: seq<Key>, arg: string): (i: nat)
    ensures i <= |keys|
    ensures forall j :: 0 <= j < i ==> Scan(keys[j], arg).None?
    ensures i < |keys| ==> Scan(keys[i], arg).Some?
  {
    if keys == [] then 0
    else if Scan(keys[0], arg).Some? then 0
    else
      var i := FirstMatchIndex(keys[1..], arg);
      assert forall j :: 0 < j < i + 1 ==> keys[j] == keys[1..][j - 1];
      1 + i
  }

  /**
   * The directive of the first of `keys` whose pattern matches `arg`. Nothing
   * is found exactly when no pattern matches; otherwise the key found is the
   * earliest that matches, and its value is what that pattern converted.
   */
  function FirstMatch(keys: seq<Key>, arg: string): (r: Option<Directive>)
    ensures r.None? <==> forall j :: 0 <= j < |keys| ==> Scan(keys[j], arg).None?
    ensures r.Some? ==> WellFormed(r.value)
    ensures r.Some? ==> exists i :: 0 <= i < |keys| && keys[i] == r.value.key
                                 && Scan(keys[i], arg) == Some(r.value.value)
                                 && forall j :: 0 <= j < i ==> Scan(keys[j], arg).None?
  {
    var i := FirstMatchIndex(keys, arg);
    if i == |keys| then None else Some(Directive(keys[i], Scan(keys[i], arg).value))
  }

  /** What `parseArgument` makes of one argument. */
  function Classify(arg: string): Option<Directive> {
    FirstMatch(Order, arg)
  }

  /** Recovers a key from its name; the inverse of `Name`. */
  function KeyNamed(name: string): Option<Key> {
    if name == "sampleoutput" then Some(SampleOutput)
    else if name == "quiet" then Some(Quiet)
    else if name == "preset" then Some(Preset)
    else if name == "rec" then Some(Rec)
    else if name == "noros" then Some(NoRos)
    else if name == "nolog" then Some(NoLog)
    else if name == "reversePlay" then Some(ReversePlay)
    else if name == "nogui" then Some(NoGui)
    else if name == "nomt" then Some(NoMt)
    else if name == "prefetch" then Some(Prefetch)
    else if name == "start" then Some(Start)
    else if name == "end" then Some(End)
    else if name == "loopclosing" then Some(LoopClosing)
    else if name == "files" then Some(Files)
    else if name == "vocab" then Some(Vocab)
    else if name == "calib" then Some(Calib)
    else if name == "vignette" then Some(Vignette)
    else if name == "gamma" then Some(Gamma)
    else if name == "rescale" then Some(Rescale)
    else if name == "speed" then Some(Speed)
    else if name == "output" then Some(Output)
    else if name == "save" then Some(Save)
    else if name == "mode" then Some(Mode)
    else None
  }

  /** Every pattern name is spelt differently (its name leads back to it), and none contains `=`. */
  lemma NamesDistinct(k: Key)
    ensures KeyNamed(Name(k)) == Some(k)
    ensures '=' !in Name(k)
  {
    match k
    case SampleOutput | Quiet | Preset | Rec | NoRos | NoLog | ReversePlay | NoGui => NamesDistinctGroup1(k);
    case NoMt | Prefetch | Start | End => NamesDistinctGroup2(k);
    case LoopClosing | Files | Vocab => NamesDistinctGroup3(k);
    case Calib | Vignette | Gamma => NamesDistinctGroup4(k);
    case Rescale | Speed | Output => NamesDistinctGroup5(k);
    case Save | Mode => NamesDistinctGroup6(k);
  }

  // NamesDistinctGroup1 to NamesDistinctGroup6 state `NamesDistinct` for the
  // keys of one group each, so that no single proof has to look at all 23 names.

  lemma NamesDistinctGroup1(k: Key)
    requires k == SampleOutput || k == Quiet || k == Preset || k == Rec || k == NoRos || k == NoLog || k == ReversePlay || k == NoGui
    ensures KeyNamed(Name(k)) == Some(k)
    ensures '=' !in Name(k)
  {
  }

  lemma NamesDistinctGroup2(k: Key)
    requires k == NoMt || k == Prefetch || k == Start || k == End
    ensures KeyNamed(Name(k)) == Some(k)
    ensures '=' !in Name(k)
  {
  }

  lemma NamesDistinctGroup3(k: Key)
    requires k == LoopClosing || k == Files || k == Vocab
    ensures KeyNamed(Name(k)) == Some(k)
    ensures '=' !in Name(k)
  {
  }

  lemma NamesDistinctGroup4(k: Key)
    requires k == Calib || k == Vignette || k == Gamma
    ensures KeyNamed(Name(k)) == Some(k)
    ensures '=' !in Name(k)
  {
  }

  lemma NamesDistinctGroup5(k: Key)
    requires k == Rescale || k == Speed || k == Output
    ensures KeyNamed(Name(k)) == Some(k)
    ensures '=' !in Name(k)
  {
  }

  lemma NamesDistinctGroup6(k: Key)
    requires k == Save || k == Mode
    ensures KeyNamed(Name(k)) == Some(k)
    ensures '=' !in Name(k)
  {
  }

  /** Every pattern is tried. */
  lemma InOrder(k: Key)
    ensures k in Order
  {
  }

  /** Two `name=` literals, neither name containing `=`, that both start one string are the same. */
  lemma SameNameBeforeEquals(n1: string, n2: string, arg: string)
    requires '=' !in n1 && '=' !in n2
    requires StartsWith(arg, n1 + "=") && StartsWith(arg, n2 + "=")
    ensures n1 == n2
  {
    var a, b := |n1|, |n2|;
    assert arg[a] == (n1 + "=")[a] == '=';
    assert arg[b] == (n2 + "=")[b] == '=';
    if a != b {
      assert false;
    }
    assert arg[..a] == arg[..a + 1][..a] == (n1 + "=")[..a] == n1;
    assert arg[..b] == arg[..b + 1][..b] == (n2 + "=")[..b] == n2;
  }

  /** No argument starts with the literal parts of two different patterns. */
  lemma PrefixesExclusive(k: Key, k': Key, arg: string)
    requires StartsWith(arg, Prefix(k)) && StartsWith(arg, Prefix(k'))
    ensures k == k'
  {
    NamesDistinct(k);
    NamesDistinct(k');
    SameNameBeforeEquals(Name(k), Name(k'), arg);
  }

  /**
   * An argument that starts with `name=` is decided by that pattern alone: it
   * is recognised as that pattern's directive when the conversion succeeds,
   * and is not recognised at all when it fails (no other pattern can match).
   */
  lemma ClassifyByKey(k: Key, arg: string)
    requires StartsWith(arg, Prefix(k))
    ensures Classify(arg) == (match Scan(k, arg) case Some(v) => Some(Directive(k, v)) case None => None)
  {
    InOrder(k);
    forall k' | k' != k ensures Scan(k', arg).None? {
      if Scan(k', arg).Some? {
        PrefixesExclusive(k, k', arg);
      }
    }
    var r := Classify(arg);
    if Scan(k, arg).Some? {
      var i :| 0 <= i < |Order| && Order[i] == k;
      assert Scan(Order[i], arg).Some?;
      assert r.Some?;
    } else {
      assert forall i :: 0 <= i < |Order| ==> Scan(Order[i], arg).None?;
    }
  }

  /** The text after `name=` is what the pattern's conversion reads. */
  lemma AfterPrefix(k: Key, text: string)
    ensures StartsWith(Prefix(k) + text, Prefix(k))
    ensures (Prefix(k) + text)[|Prefix(k)|..] == text
  {
    assert (Prefix(k) + text)[..|Prefix(k)|] == Prefix(k);
  }

  /** After `name=`, an integer pattern converts what `%d` reads. */
  lemma ScanInt(k: Key, text: string, n: int)
    requires ConversionOf(k) == IntConversion && ReadInt(text) == Some(n)
    ensures StartsWith(Prefix(k) + text, Prefix(k))
    ensures Scan(k, Prefix(k) + text) == Some(IntValue(n))
  {
    AfterPrefix(k, text);
  }

  /** After `name=`, a path pattern converts what `%s` reads. */
  lemma ScanWord(k: Key, text: string, w: string)
    requires ConversionOf(k) == WordConversion && ReadWord(text) == Some(w)
    ensures StartsWith(Prefix(k) + text, Prefix(k))
    ensures Scan(k, Prefix(k) + text) == Some(WordValue(w))
  {
    AfterPrefix(k, text);
  }

  /** After `name=`, a real-valued pattern converts what `%f` reads. */
  lemma ScanFloat(k: Key, text: string, x: real)
    requires ConversionOf(k) == FloatConversion && ReadFloat(text) == Some(x)
    ensures StartsWith(Prefix(k) + text, Prefix(k))
    ensures Scan(k, Prefix(k) + text) == Some(FloatValue(x))
  {
    AfterPrefix(k, text);
  }
}
