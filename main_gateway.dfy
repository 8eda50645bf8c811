/**
  The earlier, single-file gateway: the same three tables, seeded with two
  devices, a frame callback per device subscribed on connection, the live
  view without lazy registration, the snapshot read, and the live
  recognition loop that works on a copy of the current frame.

  Two defects of that code are modelled as written next to the corrected
  definition the rest of the model uses: the frame callbacks capture the
  `range` variable, and the live recognition loop dereferences a nil error.
*/
module MainGateway {
  import opened Common
  import opened Topics
  import opened Gateway
  import opened Rpc

  // ---------------------------------------------------------------------
  // Frame callbacks subscribed on connection
  // ---------------------------------------------------------------------

  /** A frame subscription: its topic, and the device its frames are filed under. */
  datatype Callback = Callback(topic: string, frameKey: string)

  /** One callback per device, each filing under its own device. */
  function Callbacks(order: seq<string>): (cs: seq<Callback>)
    ensures |cs| == |order|
    ensures forall i :: 0 <= i < |cs| ==> cs[i].topic == FrameOutTopic(cs[i].frameKey)
  {
    seq(|order|, i requires 0 <= i < |order| => Callback(FrameOutTopic(order[i]), order[i]))
  }

  /**
    As written with Go before 1.22: every callback closes over the one
    `range` variable, which holds the last device once the loop is done,
    so every callback files its frames under that device. (The topic is a
    fresh variable per iteration and is captured correctly.)
  */
  function CallbacksAsWritten(order: seq<string>): seq<Callback>
  {
    seq(|order|, i requires 0 <= i < |order| => Callback(FrameOutTopic(order[i]), order[|order| - 1]))
  }

  /**
    Corrected: each callback subscribes the topic the resubscription made
    at the same position, and files frames under the device that topic
    names, so it agrees with the regular expression of the controller.
  */
  lemma CallbacksFileUnderTheirTopic(order: seq<string>, i: nat)
    requires i < |order|
    ensures |Callbacks(order)| == |order|
    ensures Callbacks(order)[i].topic == TopicsOf(order)[i]
    ensures DeviceIdOfTopic(Callbacks(order)[i].topic) == Some(Callbacks(order)[i].frameKey)
  {
    TopicsOfAt(order, i);
    DeviceIdOfTopicRoundTrip(order[i]);
  }

  /**
    As written: when the devices are distinct, every callback but the last
    files its device's frames under another device.
  */
  lemma SharedLoopVariableMisfiles(order: seq<string>, i: nat)
    requires forall a, b :: 0 <= a < b < |order| ==> order[a] != order[b]
    requires i < |order| - 1
    ensures DeviceIdOfTopic(CallbacksAsWritten(order)[i].topic) != Some(CallbacksAsWritten(order)[i].frameKey)
  {
    DeviceIdOfTopicRoundTrip(order[i]);
  }

  /** As written, on the two seeded devices: the first device's frames land under the second. */
  lemma SeededDevicesMisfiled()
    ensures CallbacksAsWritten(["rpi-00000000ece92c87", "window-59a3b558-2207-45a3-8535-b61fc6fe454f"])[0]
         == Callback(FrameOutTopic("rpi-00000000ece92c87"), "window-59a3b558-2207-45a3-8535-b61fc6fe454f")
  {
  }

  /**
    On connection: subscribe one frame topic per device in the set, in the
    map's iteration order, each with its callback.
  */
  method OnConnect(devs: DeviceSet) returns (order: seq<string>, callbacks: seq<Callback>)
    modifies devs
    ensures devs.devices == old(devs.devices)
    ensures IsEnumeration(order, devs.devices)
    ensures devs.subscriptions == old(devs.subscriptions) + TopicsOf(order)
    ensures callbacks == Callbacks(order)
  {
    order := devs.Resubscribe();
    callbacks := Callbacks(order);
  }

  /**
    The callback body: push the frame to every non-nil session of its
    topic, then make it the current frame of the callback's device.
  */
  method OnFrame(table: StreamTable, store: FrameStore, cb: Callback, payload: array<Byte>)
    modifies table, store
    ensures table.streams == FannedOut(old(table.streams), cb.topic, payload[..])
    ensures store.currentFrame == old(store.currentFrame)[cb.frameKey := payload]
  {
    table.FanOut(cb.topic, payload[..]);
    store.Store(cb.frameKey, payload);
  }

  // ---------------------------------------------------------------------
  // Live view without registration
  // ---------------------------------------------------------------------

  /**
    GET /api/device/:deviceId/capture/live: attach a new session to the
    device's topic. The device set is not touched: only the seeded devices
    are ever subscribed.
  */
  method CaptureLive(table: StreamTable, deviceId: string, sessionId: string) returns (topic: string)
    modifies table
    ensures topic == FrameOutTopic(deviceId)
    ensures table.streams == Attached(old(table.streams), topic, sessionId)
  {
    topic := "/3ml/device/" + deviceId + "/framed/out";
    table.Attach(topic, sessionId);
  }

  // ---------------------------------------------------------------------
  // Live recognition loop
  // ---------------------------------------------------------------------

  /** What one round of the live recognition loop does. */
  datatype LiveStep =
    | Crash                      // a run-time panic of the goroutine
    | Respond500(error: string)  // answer 500 with the error text and stop
    | ShowFrame(frame: Frame)    // hand the frame to the viewer's stream

  /**
    As written: when the reply failed to decode, the branch that handles
    `response.Error` first logs `err.Error()` with `err` nil, a nil
    dereference.
  */
  function RecognizeLiveStepAsWritten(frame: Frame, e: ReplyEvent): LiveStep
  {
    var r := Outcome(e);
    if r.err.Some? then Respond500(r.err.value)
    else if r.response.value.error.Some? then Crash
    else ShowFrame(frame)
  }

  lemma DecodeFailureCrashesAsWritten(frame: Frame, msg: string)
    ensures RecognizeLiveStepAsWritten(frame, ReplyBeforeDeadline(Err(msg))) == Crash
  {
  }

  /** Corrected: a decode failure answers 500 with the decoder's message. */
  function RecognizeLiveStep(frame: Frame, e: ReplyEvent): (s: LiveStep)
    ensures s != Crash
    ensures s.ShowFrame? ==> s.frame == frame
  {
    var r := Outcome(e);
    if r.err.Some? then Respond500(r.err.value)
    else if r.response.value.error.Some? then Respond500(r.response.value.error.value)
    else ShowFrame(frame)
  }

  /**
    Corrected: a round never crashes; it shows the frame exactly when the
    reply decoded, answers 500 "timeout" on the deadline and 500 with the
    decoder's message on a decode failure.
  */
  lemma RecognizeLiveStepOutcomes(frame: Frame, e: ReplyEvent)
    ensures RecognizeLiveStep(frame, e) != Crash
    ensures RecognizeLiveStep(frame, e) == ShowFrame(frame) <==> e.ReplyBeforeDeadline? && e.decoded.Ok?
    ensures e.Deadline? ==> RecognizeLiveStep(frame, e) == Respond500(TimeoutError)
    ensures e.ReplyBeforeDeadline? && e.decoded.Err? ==> RecognizeLiveStep(frame, e) == Respond500(e.decoded.error)
  {
  }

  /**
    GET /api/device/:deviceId/recognize/live, one round per reply event:
    each round copies the current frame, and the loop shows the copy until
    a round answers 500.
  */
  method RecognizeLive(store: FrameStore, deviceId: string, events: seq<ReplyEvent>)
    returns (shown: seq<Frame>, failure: Option<string>)
    ensures |shown| <= |events|
    ensures forall k :: 0 <= k < |shown| ==> shown[k] == store.FrameOf(deviceId)
    ensures forall k :: 0 <= k < |shown| ==> events[k].ReplyBeforeDeadline? && events[k].decoded.Ok?
    ensures failure.None? ==> |shown| == |events|
    ensures failure.Some? ==>
      && |shown| < |events|
      && RecognizeLiveStep(store.FrameOf(deviceId), events[|shown|]) == Respond500(failure.value)
  {
    shown := [];
    var i := 0;
    while i < |events|
      invariant 0 <= i <= |events| && |shown| == i
      invariant forall k :: 0 <= k < i ==> shown[k] == store.FrameOf(deviceId)
      invariant forall k :: 0 <= k < i ==> events[k].ReplyBeforeDeadline? && events[k].decoded.Ok?
    {
      var frame := store.Snapshot(deviceId);
      RecognizeLiveStepOutcomes(frame[..], events[i]);
      match RecognizeLiveStep(frame[..], events[i]) {
        case Respond500(msg) =>
          return shown, Some(msg);
        case ShowFrame(f) =>
          shown := shown + [f];
        case Crash =>
          assert false;
      }
      i := i + 1;
    }
    return shown, None;
  }
}
