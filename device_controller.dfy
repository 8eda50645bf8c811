/**
  The live-view handlers of the device controller and the broker callback
  that feeds them.

  GET /device/:deviceId/capture/live registers the device lazily (one broker
  subscription per device, ever), then attaches a new session to the
  device's frame topic; when the viewer goes away the session's slot is set
  to nil. Every frame that arrives on a frame topic is pushed to every live
  session of that topic, and then becomes the device's current frame.
*/
module DeviceController {
  import opened Common
  import opened Topics
  import opened Gateway

  /**
    The live-view handler up to serving the stream: ensure the device is
    subscribed, then attach session `sessionId` under the device's topic.
  */
  method CaptureLive(devs: DeviceSet, table: StreamTable, deviceId: string, sessionId: string)
    returns (topic: string)
    modifies devs, table
    ensures topic == FrameOutTopic(deviceId)
    ensures devs.devices == old(devs.devices) + {deviceId}
    ensures devs.subscriptions == if deviceId in old(devs.devices) then old(devs.subscriptions)
                                  else old(devs.subscriptions) + [topic]
    ensures table.streams == Attached(old(table.streams), topic, sessionId)
  {
    var _ := devs.EnsureSubscribed(deviceId);
    topic := "/3ml/device/" + deviceId + "/framed/out";
    table.Attach(topic, sessionId);
  }

  /**
    The callback for a frame on `topic`: push it to every live session of
    the topic, then store it as the current frame of the device the topic
    names. The broker only delivers on subscribed topics, all of which are
    frame topics.
  */
  method HandleFrame(table: StreamTable, store: FrameStore, topic: string, payload: array<Byte>)
    requires DeviceIdOfTopic(topic).Some?
    modifies table, store
    ensures table.streams == FannedOut(old(table.streams), topic, payload[..])
    ensures store.currentFrame == old(store.currentFrame)[DeviceIdOfTopic(topic).value := payload]
  {
    table.FanOut(topic, payload[..]);
    var deviceId := DeviceIdOfTopic(topic).value;
    store.Store(deviceId, payload);
  }
}
