/**
  Broker topic names of the device gateway and the regular expression that
  recovers a device id from a frame topic.

  The frame topic of a device is "/3ml/device/" + deviceId + "/framed/out",
  and `topicDeviceRegex` is `^/3ml/device/(.*)/framed/out$`. In Go's regexp
  syntax `.` matches any character except a newline unless the `s` flag is
  set, so the expression as written cannot recover an id that contains a
  newline. `MatchFrameTopic` models the expression as written and
  `DeviceIdOfTopic` the dot-all expression the code evidently intends.
*/
module Topics {
  import opened Common

  const DevicePrefix: string := "/3ml/device/"
  const FrameOutSuffix: string := "/framed/out"

  /** The topic a device publishes its frames on. */
  function FrameOutTopic(deviceId: string): string
  {
    DevicePrefix + deviceId + FrameOutSuffix
  }

  /** The part of `topic` between the device prefix and the frame suffix. */
  function Middle(topic: string): string
    requires |DevicePrefix| + |FrameOutSuffix| <= |topic|
  {
    topic[|DevicePrefix|..|topic| - |FrameOutSuffix|]
  }

  /** The topic has the frame-topic shape: prefix, anything, suffix. */
  predicate IsFrameTopicShape(topic: string)
  {
    && |DevicePrefix| + |FrameOutSuffix| <= |topic|
    && HasPrefix(topic, DevicePrefix)
    && HasSuffix(topic, FrameOutSuffix)
  }

  /**
    The capture of `topicDeviceRegex` as written: the anchors force the
    group to be exactly the middle, and `.` refuses '\n'.
  */
  function MatchFrameTopic(topic: string): (r: Option<string>)
    ensures r.Some? ==> '\n' !in r.value
  {
    if IsFrameTopicShape(topic) && '\n' !in Middle(topic) then Some(Middle(topic)) else None
  }

  /** The dot-all expression `(?s)^/3ml/device/(.*)/framed/out$`. */
  function DeviceIdOfTopic(topic: string): Option<string>
  {
    if IsFrameTopicShape(topic) then Some(Middle(topic)) else None
  }

  /** Reading prefix and suffix back off a built topic gives the id. */
  lemma FrameOutTopicParts(deviceId: string)
    ensures IsFrameTopicShape(FrameOutTopic(deviceId))
    ensures Middle(FrameOutTopic(deviceId)) == deviceId
  {
    var t := FrameOutTopic(deviceId);
    assert t[..|DevicePrefix|] == DevicePrefix;
    assert t[|t| - |FrameOutSuffix|..] == FrameOutSuffix;
    assert t[|DevicePrefix|..|t| - |FrameOutSuffix|] == deviceId;
  }

  /** Distinct devices publish on distinct topics. */
  lemma FrameOutTopicInjective(a: string, b: string)
    ensures FrameOutTopic(a) == FrameOutTopic(b) ==> a == b
  {
    FrameOutTopicParts(a);
    FrameOutTopicParts(b);
  }

  /** A topic of frame shape is the frame topic of its middle. */
  lemma ShapeIsFrameOutTopic(topic: string)
    requires IsFrameTopicShape(topic)
    ensures topic == FrameOutTopic(Middle(topic))
  {
    var n := |topic|;
    var p := |DevicePrefix|;
    var q := |FrameOutSuffix|;
    assert topic == topic[..p] + topic[p..n - q] + topic[n - q..];
  }

  /**
    The expression as written matches a topic with capture `d` exactly when
    the topic is the frame topic of `d` and `d` holds no newline.
  */
  lemma MatchFrameTopicExact(topic: string, d: string)
    ensures MatchFrameTopic(topic) == Some(d) <==> topic == FrameOutTopic(d) && '\n' !in d
  {
    FrameOutTopicParts(d);
    if IsFrameTopicShape(topic) {
      ShapeIsFrameOutTopic(topic);
    }
  }

  /** As written: the topic of a device whose id holds a newline is not matched. */
  lemma NewlineDeviceIdUnmatched()
    ensures MatchFrameTopic(FrameOutTopic("cam\n1")) == None
  {
    FrameOutTopicParts("cam\n1");
  }

  /** Corrected: the dot-all expression matches exactly the frame topics. */
  lemma DeviceIdOfTopicExact(topic: string, d: string)
    ensures DeviceIdOfTopic(topic) == Some(d) <==> topic == FrameOutTopic(d)
  {
    FrameOutTopicParts(d);
    if IsFrameTopicShape(topic) {
      ShapeIsFrameOutTopic(topic);
    }
  }

  /** Corrected: the round trip holds for every device id. */
  lemma DeviceIdOfTopicRoundTrip(d: string)
    ensures DeviceIdOfTopic(FrameOutTopic(d)) == Some(d)
  {
    DeviceIdOfTopicExact(FrameOutTopic(d), d);
  }
}
