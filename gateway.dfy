/**
  The three in-memory tables of the device gateway, shared by the live-view
  handlers and the broker callbacks:

  - `devices`: the set of devices whose frame topic the gateway has
    subscribed to, with the log of broker subscriptions made so far;
  - `streams`: frame topic -> session id -> the session's stream, or the
    nil written when the viewer went away;
  - `currentFrame`: device id -> the last frame received from it.

  Each table is a class whose methods update it in place. The stream table
  is also specified at the level of values (`Attached`, `Released`,
  `FannedOut`, and `Run` over a sequence of events), and the lemmas at the
  end say what a viewer receives over any run.
*/
module Gateway {
  import opened Common
  import opened Topics

  // ---------------------------------------------------------------------
  // Device set
  // ---------------------------------------------------------------------

  /** The two devices the gateway knows at start-up. */
  const SeededDevices: set<string> :=
    {"rpi-00000000ece92c87", "window-59a3b558-2207-45a3-8535-b61fc6fe454f"}

  /** `order` lists every element of `s` exactly once. */
  ghost predicate IsEnumeration(order: seq<string>, s: set<string>)
  {
    && (forall i, j :: 0 <= i < j < |order| ==> order[i] != order[j])
    && (forall d :: d in order <==> d in s)
  }

  /** The frame topics of `order`, in the same order. */
  function TopicsOf(order: seq<string>): (r: seq<string>)
    ensures |r| == |order|
  {
    if order == [] then [] else TopicsOf(order[..|order| - 1]) + [FrameOutTopic(order[|order| - 1])]
  }

  lemma {:induction false} TopicsOfAt(order: seq<string>, i: nat)
    requires i < |order|
    ensures |TopicsOf(order)| == |order|
    ensures TopicsOf(order)[i] == FrameOutTopic(order[i])
  {
    var k := |order| - 1;
    if i < k {
      TopicsOfAt(order[..k], i);
    } else if k > 0 {
      TopicsOfAt(order[..k], 0);
    }
  }

  lemma {:induction false} EnumerationSize(order: seq<string>, s: set<string>)
    requires IsEnumeration(order, s)
    ensures |order| == |s|
    decreases |order|
  {
    if order != [] {
      var k := |order| - 1;
      var last := order[k];
      assert IsEnumeration(order[..k], s - {last}) by {
        forall d ensures d in order[..k] <==> d in s - {last} {
          if d in order[..k] {
            var i :| 0 <= i < k && order[..k][i] == d;
            assert order[i] == d && i != k;
          }
          if d in s - {last} {
            var i :| 0 <= i < |order| && order[i] == d;
            assert i != k;
            assert order[..k][i] == d;
          }
        }
      }
      EnumerationSize(order[..k], s - {last});
    } else {
      assert s == {};
    }
  }

  /**
    Resubscribing the device set makes exactly one subscription per device:
    as many topics as devices, no topic twice, and the frame topic of a
    device is among them exactly when the device is in the set.
  */
  lemma OneSubscriptionPerDevice(order: seq<string>, s: set<string>)
    requires IsEnumeration(order, s)
    ensures |TopicsOf(order)| == |s|
    ensures forall i, j :: 0 <= i < j < |TopicsOf(order)| ==> TopicsOf(order)[i] != TopicsOf(order)[j]
    ensures forall d :: d in s <==> FrameOutTopic(d) in TopicsOf(order)
  {
    EnumerationSize(order, s);
    var ts := TopicsOf(order);
    forall i, j | 0 <= i < j < |ts| ensures ts[i] != ts[j] {
      TopicsOfAt(order, i);
      TopicsOfAt(order, j);
      FrameOutTopicInjective(order[i], order[j]);
    }
    forall d ensures d in s <==> FrameOutTopic(d) in ts {
      if d in s {
        var i :| 0 <= i < |order| && order[i] == d;
        TopicsOfAt(order, i);
      }
      if FrameOutTopic(d) in ts {
        var i :| 0 <= i < |ts| && ts[i] == FrameOutTopic(d);
        TopicsOfAt(order, i);
        FrameOutTopicInjective(order[i], d);
      }
    }
  }

  class DeviceSet {
    /** `devices`: the devices whose frame topic has been subscribed to. */
    var devices: set<string>
    /** The broker subscriptions made so far, as topics, in order. */
    var subscriptions: seq<string>

    /** The controller's device set starts empty. */
    constructor ()
      ensures devices == {} && subscriptions == []
    {
      devices := {};
      subscriptions := [];
    }

    /** The device set of the earlier gateway, seeded with two ids. */
    constructor Seeded()
      ensures devices == SeededDevices && subscriptions == []
    {
      devices := SeededDevices;
      subscriptions := [];
    }

    /**
      Lazy registration: a device not yet in the set is added and its frame
      topic subscribed; a known device changes nothing.
    */
    method EnsureSubscribed(deviceId: string) returns (subscribed: bool)
      modifies this
      ensures subscribed <==> deviceId !in old(devices)
      ensures devices == old(devices) + {deviceId}
      ensures subscriptions == if subscribed then old(subscriptions) + [FrameOutTopic(deviceId)]
                               else old(subscriptions)
    {
      subscribed := deviceId !in devices;
      if subscribed {
        devices := devices + {deviceId};
        subscriptions := subscriptions + [FrameOutTopic(deviceId)];
      }
    }

    /**
      On (re)connection to the broker: subscribe the frame topic of every
      device in the set, in the map's iteration order `order`.
    */
    method Resubscribe() returns (order: seq<string>)
      modifies this
      ensures devices == old(devices)
      ensures IsEnumeration(order, devices)
      ensures subscriptions == old(subscriptions) + TopicsOf(order)
    {
      var remaining := devices;
      order := [];
      while remaining != {}
        invariant remaining <= devices
        invariant IsEnumeration(order, devices - remaining)
        invariant subscriptions == old(subscriptions) + TopicsOf(order)
        invariant devices == old(devices)
        decreases remaining
      {
        var d :| d in remaining;
        subscriptions := subscriptions + [FrameOutTopic(d)];
        order := order + [d];
        remaining := remaining - {d};
      }
    }
  }

  // ---------------------------------------------------------------------
  // Stream table
  // ---------------------------------------------------------------------

  /**
    The value under `streams[topic][sessionId]`: the session's stream, with
    the frames handed to it so far, or nil.
  */
  datatype Slot = Nil | Stream(frames: seq<Frame>)

  type Sessions = map<string, Slot>
  type StreamMap = map<string, Sessions>

  /** The sessions of `topic`, where a missing topic reads as an empty map. */
  function Inner(streams: StreamMap, topic: string): Sessions
  {
    if topic in streams then streams[topic] else map[]
  }

  /** The table after a viewer attaches session `sid` to `topic`. */
  function Attached(streams: StreamMap, topic: string, sid: string): StreamMap
  {
    streams[topic := Inner(streams, topic)[sid := Stream([])]]
  }

  /** The table after session `sid` of `topic` is released (set to nil). */
  function Released(streams: StreamMap, topic: string, sid: string): StreamMap
  {
    streams[topic := Inner(streams, topic)[sid := Nil]]
  }

  /** A stream receives the frame; a nil slot receives nothing. */
  function Pushed(slot: Slot, frame: Frame): Slot
  {
    match slot
    case Nil => Nil
    case Stream(fs) => Stream(fs + [frame])
  }

  /** The table after `frame` is pushed to every session of `topic`. */
  function FannedOut(streams: StreamMap, topic: string, frame: Frame): StreamMap
  {
    if topic in streams then
      streams[topic := map s | s in streams[topic] :: Pushed(streams[topic][s], frame)]
    else streams
  }

  /** What happens to the stream table, one event at a time. */
  datatype StreamEvent =
    | Attach(topic: string, session: string)
    | Release(topic: string, session: string)
    | Publish(topic: string, frame: Frame)

  /**
    One event applied to the table. A release always follows its own
    attach, so its topic has sessions; a release of a topic without any
    (which would panic in Go) is not an event and changes nothing.
  */
  function Apply(streams: StreamMap, e: StreamEvent): StreamMap
  {
    match e
    case Attach(t, s) => Attached(streams, t, s)
    case Release(t, s) => if t in streams then Released(streams, t, s) else streams
    case Publish(t, f) => FannedOut(streams, t, f)
  }

  function Run(streams: StreamMap, es: seq<StreamEvent>): StreamMap
    decreases |es|
  {
    if es == [] then streams else Run(Apply(streams, es[0]), es[1..])
  }

  /** The frames published on `topic` in `es`, in order. */
  function FramesOn(topic: string, es: seq<StreamEvent>): seq<Frame>
  {
    if es == [] then []
    else (if es[0].Publish? && es[0].topic == topic then [es[0].frame] else []) + FramesOn(topic, es[1..])
  }

  /** `es` neither attaches nor releases session `sid` of `topic`. */
  predicate LeavesSession(es: seq<StreamEvent>, topic: string, sid: string)
  {
    forall i :: 0 <= i < |es| ==> es[i].Publish? || es[i].topic != topic || es[i].session != sid
  }

  /** A nil slot stays nil as long as the same session is not attached again. */
  lemma {:induction false} NilSlotStaysNil(streams: StreamMap, topic: string, sid: string, es: seq<StreamEvent>)
    requires topic in streams && sid in streams[topic] && streams[topic][sid] == Nil
    requires forall i :: 0 <= i < |es| ==> !(es[i].Attach? && es[i].topic == topic && es[i].session == sid)
    ensures topic in Run(streams, es) && sid in Run(streams, es)[topic]
    ensures Run(streams, es)[topic][sid] == Nil
    decreases |es|
  {
    if es != [] {
      var next := Apply(streams, es[0]);
      assert !(es[0].Attach? && es[0].topic == topic && es[0].session == sid);
      assert topic in next && sid in next[topic] && next[topic][sid] == Nil;
      assert forall i :: 0 <= i < |es| - 1 ==> es[1..][i] == es[i + 1];
      NilSlotStaysNil(next, topic, sid, es[1..]);
    }
  }

  /**
    After release, a session never receives another frame: as long as no
    later event reattaches the same session id, its slot stays nil.
  */
  lemma ReleasedSessionGetsNothing(streams: StreamMap, topic: string, sid: string, es: seq<StreamEvent>)
    requires forall i :: 0 <= i < |es| ==> !(es[i].Attach? && es[i].topic == topic && es[i].session == sid)
    ensures topic in Run(Released(streams, topic, sid), es)
    ensures sid in Run(Released(streams, topic, sid), es)[topic]
    ensures Run(Released(streams, topic, sid), es)[topic][sid] == Nil
  {
    NilSlotStaysNil(Released(streams, topic, sid), topic, sid, es);
  }

  /**
    A live session receives every frame published on its topic, once each,
    in broker order, and nothing else, for as long as it is not released.
  */
  lemma {:induction false} LiveSessionGetsTopicFrames(streams: StreamMap, topic: string, sid: string, fs: seq<Frame>, es: seq<StreamEvent>)
    requires topic in streams && sid in streams[topic] && streams[topic][sid] == Stream(fs)
    requires LeavesSession(es, topic, sid)
    ensures topic in Run(streams, es) && sid in Run(streams, es)[topic]
    ensures Run(streams, es)[topic][sid] == Stream(fs + FramesOn(topic, es))
    decreases |es|
  {
    if es == [] {
      assert fs + [] == fs;
    } else {
      var next := Apply(streams, es[0]);
      var head := if es[0].Publish? && es[0].topic == topic then [es[0].frame] else [];
      assert LeavesSession(es[1..], topic, sid) by {
        forall i | 0 <= i < |es| - 1 ensures es[1..][i].Publish? || es[1..][i].topic != topic || es[1..][i].session != sid {
          assert es[1..][i] == es[i + 1];
        }
      }
      assert topic in next && sid in next[topic] && next[topic][sid] == Stream(fs + head) by {
        assert LeavesSession(es, topic, sid);
        assert es[0].Publish? || es[0].topic != topic || es[0].session != sid;
      }
      LiveSessionGetsTopicFrames(next, topic, sid, fs + head, es[1..]);
      assert fs + head + FramesOn(topic, es[1..]) == fs + FramesOn(topic, es);
    }
  }

  /**
    Three viewers attach to one device, a frame arrives, the second viewer
    leaves, a second frame arrives: the first and third viewers received
    both frames in order, the second viewer's slot is nil.
  */
  lemma ThreeViewersScenario(t: string, f1: Frame, f2: Frame)
    ensures var st := Run(map[], [Attach(t, "v1"), Attach(t, "v2"), Attach(t, "v3"),
                                  Publish(t, f1), Release(t, "v2"), Publish(t, f2)]);
      && t in st && st[t].Keys == {"v1", "v2", "v3"}
      && st[t]["v1"] == Stream([f1, f2])
      && st[t]["v2"] == Nil
      && st[t]["v3"] == Stream([f1, f2])
  {
    var es := [Attach(t, "v1"), Attach(t, "v2"), Attach(t, "v3"), Publish(t, f1), Release(t, "v2"), Publish(t, f2)];
    var a0 := Attached(Attached(Attached(map[], t, "v1"), t, "v2"), t, "v3");
    var a1 := FannedOut(a0, t, f1);
    var a2 := Released(a1, t, "v2");
    var a3 := FannedOut(a2, t, f2);
    calc {
      Run(map[], es);
      Run(Attached(map[], t, "v1"), es[1..]);
      { assert es[1..][0] == Attach(t, "v2"); }
      Run(Attached(Attached(map[], t, "v1"), t, "v2"), es[2..]);
      { assert es[2..][0] == Attach(t, "v3") && es[2..][1..] == es[3..]; }
      Run(a0, es[3..]);
      { assert es[3..][0] == Publish(t, f1) && es[3..][1..] == es[4..]; }
      Run(a1, es[4..]);
      { assert es[4..][0] == Release(t, "v2") && es[4..][1..] == es[5..]; }
      Run(a2, es[5..]);
      { assert es[5..][0] == Publish(t, f2) && es[5..][1..] == []; }
      a3;
    }
    ScenarioTable(t, f1, f2);
  }

  /** The table after the scenario's six events, computed step by step. */
  lemma ScenarioTable(t: string, f1: Frame, f2: Frame)
    ensures var a3 := FannedOut(Released(FannedOut(Attached(Attached(Attached(map[], t, "v1"), t, "v2"), t, "v3"), t, f1), t, "v2"), t, f2);
      && t in a3 && a3[t].Keys == {"v1", "v2", "v3"}
      && a3[t]["v1"] == Stream([f1, f2])
      && a3[t]["v2"] == Nil
      && a3[t]["v3"] == Stream([f1, f2])
  {
    var a0 := Attached(Attached(Attached(map[], t, "v1"), t, "v2"), t, "v3");
    assert t in a0 && a0[t].Keys == {"v1", "v2", "v3"};
    assert a0[t]["v1"] == Stream([]) && a0[t]["v2"] == Stream([]) && a0[t]["v3"] == Stream([]);
    var a1 := FannedOut(a0, t, f1);
    assert a1[t]["v1"] == Stream([f1]) && a1[t]["v2"] == Stream([f1]) && a1[t]["v3"] == Stream([f1]);
    var a2 := Released(a1, t, "v2");
    assert a2[t]["v1"] == Stream([f1]) && a2[t]["v2"] == Nil && a2[t]["v3"] == Stream([f1]);
    var a3 := FannedOut(a2, t, f2);
    assert a3[t]["v1"] == Stream([f1] + [f2]) && a3[t]["v3"] == Stream([f1] + [f2]);
  }

  class StreamTable {
    var streams: StreamMap

    /** The stream table starts empty. */
    constructor ()
      ensures streams == map[]
    {
      streams := map[];
    }

    /**
      Create the inner map of `topic` if missing and store a new stream
      under `sid`; every other session and topic keeps its slot.
    */
    method Attach(topic: string, sid: string)
      modifies this
      ensures streams == Attached(old(streams), topic, sid)
    {
      if topic !in streams {
        streams := streams[topic := map[]];
      }
      streams := streams[topic := streams[topic][sid := Stream([])]];
    }

    /**
      Set the session's slot to nil: the key stays and nothing else changes.
      The handler that releases a session attached it first, so the inner
      map exists (writing into a missing one would panic in Go).
    */
    method Release(topic: string, sid: string)
      requires topic in streams
      modifies this
      ensures streams == Released(old(streams), topic, sid)
      ensures streams.Keys == old(streams).Keys
      ensures sid in old(streams)[topic] ==> streams[topic].Keys == old(streams)[topic].Keys
    {
      streams := streams[topic := streams[topic][sid := Nil]];
    }

    /** Hand the frame to every session of the topic that is not nil, one session at a time. */
    method FanOut(topic: string, frame: Frame)
      modifies this
      ensures streams == FannedOut(old(streams), topic, frame)
    {
      if topic in streams {
        var sessions := streams[topic];
        var result := sessions;
        var remaining := sessions.Keys;
        while remaining != {}
          invariant remaining <= sessions.Keys
          invariant result.Keys == sessions.Keys
          invariant forall s :: s in sessions && s !in remaining ==> result[s] == Pushed(sessions[s], frame)
          invariant forall s :: s in remaining ==> result[s] == sessions[s]
          decreases remaining
        {
          var s :| s in remaining;
          if result[s] != Nil {
            result := result[s := Pushed(result[s], frame)];
          }
          remaining := remaining - {s};
        }
        assert result == map s | s in sessions :: Pushed(sessions[s], frame);
        streams := streams[topic := result];
      }
    }
  }

  // ---------------------------------------------------------------------
  // Frame store
  // ---------------------------------------------------------------------

  class FrameStore {
    /** `currentFrame`: device id -> the byte slice of its last frame. */
    var currentFrame: map<string, array<Byte>>

    /** The frame store starts empty. */
    constructor ()
      ensures currentFrame == map[]
    {
      currentFrame := map[];
    }

    /** The bytes of the last frame of `deviceId`; empty when none was seen. */
    ghost function FrameOf(deviceId: string): Frame
      reads this, currentFrame.Values
    {
      if deviceId in currentFrame then currentFrame[deviceId][..] else []
    }

    /** The payload becomes the device's current frame: last write wins. */
    method Store(deviceId: string, payload: array<Byte>)
      modifies this
      ensures currentFrame == old(currentFrame)[deviceId := payload]
      ensures FrameOf(deviceId) == payload[..]
      ensures forall d :: d != deviceId ==> FrameOf(d) == old(FrameOf(d))
    {
      currentFrame := currentFrame[deviceId := payload];
    }

    /**
      The snapshot read: the HTTP reply has content type image/jpeg and as
      body the device's last frame, or nothing when no frame was seen.
    */
    method Snap(deviceId: string) returns (contentType: string, body: Frame)
      ensures contentType == "image/jpeg"
      ensures deviceId in currentFrame ==> body == currentFrame[deviceId][..]
      ensures deviceId !in currentFrame ==> body == []
    {
      contentType := "image/jpeg";
      if deviceId in currentFrame {
        body := currentFrame[deviceId][..];
      } else {
        body := [];
      }
    }

    /**
      The copy of the current frame taken by the live recognition loop: a
      new buffer with the same bytes, not an alias of the stored one.
    */
    method Snapshot(deviceId: string) returns (frame: array<Byte>)
      ensures fresh(frame)
      ensures frame[..] == FrameOf(deviceId)
    {
      if deviceId in currentFrame {
        var stored := currentFrame[deviceId];
        frame := new Byte[stored.Length](i requires 0 <= i < stored.Length reads stored => stored[i]);
      } else {
        frame := new Byte[0];
      }
    }
  }

  /**
    Two frames arrive from a device, then a viewer asks for a snapshot:
    the reply is the second frame, as image/jpeg.
  */
  method SnapAfterTwoFrames(deviceId: string, first: array<Byte>, second: array<Byte>)
    returns (contentType: string, body: Frame)
    ensures contentType == "image/jpeg"
    ensures body == second[..]
  {
    var store := new FrameStore();
    store.Store(deviceId, first);
    store.Store(deviceId, second);
    contentType, body := store.Snap(deviceId);
  }
}
