/**
 * The live image callback: each image that arrives on the subscribed topic is
 * undistorted, stamped with its header time, handed to the SLAM system under
 * the next frame number, and then the callback waits until mapping has caught
 * up. The SLAM system is reduced to the record of the calls it receives.
 */
module Ingestion {

  /** A frame as the SLAM system receives it: its timestamp and its frame number. */
  datatype Submission = Submission(timestamp: real, id: int)

  /** One call the SLAM system receives from the callback. */
  datatype EngineEvent =
    | ActiveFrame(frame: Submission)
    | MappingDrained

  /** The SLAM system, seen only through the calls made on it, oldest first. */
  class MappingEngine {
    var events: seq<EngineEvent>

    constructor()
      ensures events == []
    {
      events := [];
    }

    /** Takes a new frame under the given number. */
    method AddActiveFrame(frame: Submission)
      modifies this
      ensures events == old(events) + [ActiveFrame(frame)]
    {
      events := events + [ActiveFrame(frame)];
    }

    /** Returns once the mapping thread has processed every queued frame. */
    method BlockUntilMappingIsFinished()
      modifies this
      ensures events == old(events) + [MappingDrained]
    {
      events := events + [MappingDrained];
    }
  }

  /**
   * The calls the SLAM system has received after one callback per timestamp
   * in `stamps`: each frame under its arrival number, each followed by a wait
   * for mapping.
   */
  function Handshake(stamps: seq<real>): (h: seq<EngineEvent>)
    ensures |h| == 2 * |stamps|
  {
    if stamps == [] then []
    else
      var k := |stamps| - 1;
      Handshake(stamps[..k]) + [ActiveFrame(Submission(stamps[k], k)), MappingDrained]
  }

  /** The frames among the calls, in the order they were submitted. */
  function Submitted(events: seq<EngineEvent>): seq<Submission> {
    if events == [] then []
    else
      var last := events[|events| - 1];
      Submitted(events[..|events| - 1]) + (if last.ActiveFrame? then [last.frame] else [])
  }

  /** The timestamps numbered 0, 1, 2, … in arrival order. */
  function Numbered(stamps: seq<real>): (frames: seq<Submission>)
    ensures |frames| == |stamps|
    ensures forall i :: 0 <= i < |stamps| ==> frames[i] == Submission(stamps[i], i)
  {
    if stamps == [] then [] else Numbered(stamps[..|stamps| - 1]) + [Submission(stamps[|stamps| - 1], |stamps| - 1)]
  }

  /**
   * The `i`th callback submits the `i`th image under number `i` with its own
   * timestamp, and waits for mapping before the next frame is submitted.
   */
  lemma {:induction false} HandshakeShape(stamps: seq<real>)
    ensures forall i :: 0 <= i < |stamps| ==>
      Handshake(stamps)[2 * i] == ActiveFrame(Submission(stamps[i], i))
    ensures forall i :: 0 <= i < |stamps| ==> Handshake(stamps)[2 * i + 1] == MappingDrained
  {
    if stamps != [] {
      var k := |stamps| - 1;
      HandshakeShape(stamps[..k]);
    }
  }

  /**
   * The frames the SLAM system receives are exactly the images in arrival
   * order, numbered from 0 without gaps or repeats.
   */
  lemma {:induction false} SubmittedInOrder(stamps: seq<real>)
    ensures Submitted(Handshake(stamps)) == Numbered(stamps)
  {
    if stamps != [] {
      var k := |stamps| - 1;
      var before := Handshake(stamps[..k]);
      var frame := Submission(stamps[k], k);
      SubmittedInOrder(stamps[..k]);
      var h := before + [ActiveFrame(frame), MappingDrained];
      assert h[..|h| - 1] == before + [ActiveFrame(frame)];
      assert (before + [ActiveFrame(frame)])[..|before|] == before;
    }
  }

  /** No two submitted frames share a number, and the numbers increase. */
  lemma NumbersIncrease(stamps: seq<real>, i: int, j: int)
    requires 0 <= i < j < |stamps|
    ensures var frames := Submitted(Handshake(stamps));
      |frames| == |stamps| && frames[i].id < frames[j].id
  {
    SubmittedInOrder(stamps);
  }

  /**
   * The callback's state: the frame counter and the SLAM system it feeds,
   * with the timestamps received so far as a ghost history.
   */
  class LiveDriver {
    var frameID: int
    var engine: MappingEngine
    ghost var stamps: seq<real>

    /** The counter equals the number of images received, and the SLAM system has seen their handshakes. */
    ghost predicate Valid()
      reads this, engine
    {
      frameID == |stamps| && engine.events == Handshake(stamps)
    }

    /** The counter starts at 0, before any image is received. */
    constructor(engine: MappingEngine)
      requires engine.events == []
      ensures Valid() && stamps == [] && this.engine == engine
    {
      frameID := 0;
      this.engine := engine;
      stamps := [];
    }

    /**
     * One image arrives with header time `timestamp`: it is submitted under
     * the current counter, the counter advances, and the callback waits for
     * mapping.
     */
    method VidCb(timestamp: real)
      requires Valid()
      modifies this, engine
      ensures Valid() && engine == old(engine)
      ensures stamps == old(stamps) + [timestamp]
      ensures frameID == old(frameID) + 1
      ensures engine.events == old(engine.events) + [ActiveFrame(Submission(timestamp, old(frameID))), MappingDrained]
    {
      engine.AddActiveFrame(Submission(timestamp, frameID));
      frameID := frameID + 1;
      engine.BlockUntilMappingIsFinished();
      stamps := stamps + [timestamp];
      assert stamps[..|stamps| - 1] == old(stamps);
    }
  }
}
