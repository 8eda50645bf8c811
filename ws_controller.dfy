/**
  The WebSocket side of the gateway: a registry of live connections
  (`wsMap`), a registry of which connections watch which desk
  (`deviceNotifyConnMap`), the per-connection read loop that handles
  WATCH_DESK and UNWATCH_DESK, and the dispatch of a desk notification from
  the broker to the desk's live watchers.

  A connection is modelled by the messages written to it so far, so
  `wsMap` maps a connection id to that output log. Closing a connection
  removes it from `wsMap` only: its id stays in every watch set, and
  dispatch skips ids that are no longer connected.
*/
module WSController {
  import opened Common

  /** `WSMessage`: both what clients send and what the server pushes. */
  datatype WSMessage = WSMessage(code: int, msgType: string, payload: string)

  function ConnectedMessage(wsId: string): WSMessage
  {
    WSMessage(200, "CONNECTED", wsId)
  }

  const WatchDeskFail: WSMessage :=
    WSMessage(200, "APP_NOTIFICATION_WATCH_DESK_FAIL", "Desk not found")
  const WatchDeskSuccess: WSMessage :=
    WSMessage(200, "APP_NOTIFICATION_WATCH_DESK_SUCCESS", "You will receive notification on this desk")
  const Remind: WSMessage :=
    WSMessage(200, "APP_NOTIFICATION_REMIND",
      "You are sitting for too long. To protect you health, please consider to take a break for better health.")

  /** The broker topic on which notifications for a desk arrive. */
  function DeskNotificationTopic(deskId: string): string
  {
    "/3ml/desk/" + deskId + "/notification"
  }

  /** On connection, one subscription per desk known at start-up, in list order. */
  function NotificationTopics(desks: seq<string>): (ts: seq<string>)
    ensures |ts| == |desks|
    ensures forall i :: 0 <= i < |desks| ==> ts[i] == DeskNotificationTopic(desks[i])
  {
    if desks == [] then [] else [DeskNotificationTopic(desks[0])] + NotificationTopics(desks[1..])
  }

  /** Connection id -> the messages written to that connection so far. */
  type Outboxes = map<string, seq<WSMessage>>
  /** Desk id -> ids of the connections watching it. */
  type Watchers = map<string, set<string>>

  /** The watchers of `deskId`, where a missing desk has no watcher. */
  function WatchersOf(w: Watchers, deskId: string): set<string>
  {
    if deskId in w then w[deskId] else {}
  }

  function Watched(w: Watchers, deskId: string, wsId: string): Watchers
  {
    w[deskId := WatchersOf(w, deskId) + {wsId}]
  }

  function Unwatched(w: Watchers, deskId: string, wsId: string): Watchers
  {
    w[deskId := WatchersOf(w, deskId) - {wsId}]
  }

  /** Message `m` written to connection `wsId`. */
  function Sent(conns: Outboxes, wsId: string, m: WSMessage): Outboxes
    requires wsId in conns
  {
    conns[wsId := conns[wsId] + [m]]
  }

  /** The connections a notification for `deskId` reaches: watchers still connected. */
  function DispatchTargets(conns: Outboxes, w: Watchers, deskId: string): set<string>
  {
    set c | c in WatchersOf(w, deskId) && c in conns
  }

  /** Every connection in `targets` gets one reminder; the others nothing. */
  function Reminded(conns: Outboxes, targets: set<string>): Outboxes
  {
    map c | c in conns :: if c in targets then conns[c] + [Remind] else conns[c]
  }

  /** A decoded broker notification; only its desk id is used. */
  datatype Notification = Notification(deskId: string)

  /** Both registries together. */
  datatype WsState = WsState(conns: Outboxes, watchers: Watchers)

  /** The connections after a notification payload (decoded, or not) arrives. */
  function Dispatched(s: WsState, decoded: Option<Notification>): (r: Outboxes)
    ensures r.Keys == s.conns.Keys
  {
    match decoded
    case None => s.conns
    case Some(n) => Reminded(s.conns, DispatchTargets(s.conns, s.watchers, n.deskId))
  }

  /**
    One client message on connection `wsId`; `deskCount` is what the record
    store counts for the desk the message names.
  */
  function HandleMessage(s: WsState, wsId: string, m: WSMessage, deskCount: int): (r: WsState)
    requires wsId in s.conns
    ensures r.conns.Keys == s.conns.Keys
  {
    if m.msgType == "WATCH_DESK" then
      if deskCount <= 0 then s.(conns := Sent(s.conns, wsId, WatchDeskFail))
      else WsState(Sent(s.conns, wsId, WatchDeskSuccess), Watched(s.watchers, m.payload, wsId))
    else if m.msgType == "UNWATCH_DESK" then
      s.(watchers := Unwatched(s.watchers, m.payload, wsId))
    else s
  }

  /** What one read of the connection yields. */
  datatype ReadResult =
    | Received(m: WSMessage)   // a decoded message
    | ReadFailed               // a read or decode error
    | CloseReceived            // a close frame: the close handler runs, then the read fails

  /** Why the read loop is where it is. */
  datatype LoopEnd = Stopped | StillReading

  /** The registries when the read loop is where it is, and why. */
  datatype Served = Served(state: WsState, end: LoopEnd)

  /** The read loop over the reads the connection delivers, in order. */
  function Serve(s: WsState, wsId: string, inbox: seq<ReadResult>, deskCount: string -> int): Served
    decreases |inbox|
  {
    if wsId !in s.conns then Served(s, Stopped)
    else if inbox == [] then Served(s, StillReading)
    else match inbox[0]
      case ReadFailed => Served(s, Stopped)
      case CloseReceived => Served(s.(conns := s.conns - {wsId}), Stopped)
      case Received(m) => Serve(HandleMessage(s, wsId, m, deskCount(m.payload)), wsId, inbox[1..], deskCount)
  }

  // ---------------------------------------------------------------------
  // Properties of the rules
  // ---------------------------------------------------------------------

  /** WATCH_DESK for a desk the store does not know: a failure push, no watch. */
  lemma WatchMissingDesk(s: WsState, wsId: string, deskId: string, deskCount: int)
    requires wsId in s.conns && deskCount <= 0
    ensures HandleMessage(s, wsId, WSMessage(0, "WATCH_DESK", deskId), deskCount)
         == WsState(s.conns[wsId := s.conns[wsId] + [WatchDeskFail]], s.watchers)
  {
  }

  /**
    WATCH_DESK for a known desk: the connection joins that desk's watchers,
    gets a success push, and no other desk's watchers change; doing it
    again leaves the watchers as they are.
  */
  lemma WatchKnownDesk(s: WsState, wsId: string, deskId: string, deskCount: int, code: int)
    requires wsId in s.conns && deskCount > 0
    ensures var s1 := HandleMessage(s, wsId, WSMessage(code, "WATCH_DESK", deskId), deskCount);
      && WatchersOf(s1.watchers, deskId) == WatchersOf(s.watchers, deskId) + {wsId}
      && (forall d :: d != deskId ==> WatchersOf(s1.watchers, d) == WatchersOf(s.watchers, d))
      && s1.conns == s.conns[wsId := s.conns[wsId] + [WatchDeskSuccess]]
      && HandleMessage(s1, wsId, WSMessage(code, "WATCH_DESK", deskId), deskCount).watchers == s1.watchers
  {
    var s1 := HandleMessage(s, wsId, WSMessage(code, "WATCH_DESK", deskId), deskCount);
    assert Watched(s1.watchers, deskId, wsId) == s1.watchers;
  }

  /**
    UNWATCH_DESK removes the connection from that desk only and pushes
    nothing; a connection that was not watching changes no watch set.
  */
  lemma UnwatchDesk(s: WsState, wsId: string, deskId: string, code: int)
    requires wsId in s.conns
    ensures var s1 := HandleMessage(s, wsId, WSMessage(code, "UNWATCH_DESK", deskId), 0);
      && s1.conns == s.conns
      && WatchersOf(s1.watchers, deskId) == WatchersOf(s.watchers, deskId) - {wsId}
      && (forall d :: d != deskId ==> WatchersOf(s1.watchers, d) == WatchersOf(s.watchers, d))
      && (wsId !in WatchersOf(s.watchers, deskId) ==> forall d :: WatchersOf(s1.watchers, d) == WatchersOf(s.watchers, d))
  {
  }

  /** A message of any other type leaves both registries unchanged. */
  lemma UnknownTypeIgnored(s: WsState, wsId: string, m: WSMessage, deskCount: int)
    requires wsId in s.conns && m.msgType != "WATCH_DESK" && m.msgType != "UNWATCH_DESK"
    ensures HandleMessage(s, wsId, m, deskCount) == s
  {
  }

  /**
    Dispatch pushes exactly one reminder to each watcher of the desk that is
    still connected, nothing to anyone else, and nothing at all when the
    payload did not decode.
  */
  lemma DispatchReachesLiveWatchers(s: WsState, decoded: Option<Notification>, c: string)
    ensures Dispatched(s, decoded).Keys == s.conns.Keys
    ensures decoded.None? ==> Dispatched(s, decoded) == s.conns
    ensures c in s.conns && decoded.Some? && c in WatchersOf(s.watchers, decoded.value.deskId)
            ==> Dispatched(s, decoded)[c] == s.conns[c] + [Remind]
    ensures c in s.conns && (decoded.None? || c !in WatchersOf(s.watchers, decoded.value.deskId))
            ==> Dispatched(s, decoded)[c] == s.conns[c]
  {
  }

  /**
    Watching a desk and then receiving its notification: the connection
    gets the success push and then exactly one reminder.
  */
  lemma {:induction false} WatchThenDispatch(s: WsState, wsId: string, deskId: string, deskCount: int, code: int)
    requires wsId in s.conns && deskCount > 0
    ensures var s1 := HandleMessage(s, wsId, WSMessage(code, "WATCH_DESK", deskId), deskCount);
      Dispatched(s1, Some(Notification(deskId)))[wsId] == s.conns[wsId] + [WatchDeskSuccess, Remind]
  {
    var s1 := HandleMessage(s, wsId, WSMessage(code, "WATCH_DESK", deskId), deskCount);
    assert wsId in DispatchTargets(s1.conns, s1.watchers, deskId);
    assert s.conns[wsId] + [WatchDeskSuccess] + [Remind] == s.conns[wsId] + [WatchDeskSuccess, Remind];
  }

  /** After unwatching a desk, its notifications reach the connection no more. */
  lemma {:induction false} UnwatchThenDispatch(s: WsState, wsId: string, deskId: string, code: int)
    requires wsId in s.conns
    ensures var s1 := HandleMessage(s, wsId, WSMessage(code, "UNWATCH_DESK", deskId), 0);
      Dispatched(s1, Some(Notification(deskId)))[wsId] == s.conns[wsId]
  {
    var s1 := HandleMessage(s, wsId, WSMessage(code, "UNWATCH_DESK", deskId), 0);
    assert wsId !in DispatchTargets(s1.conns, s1.watchers, deskId);
  }

  /**
    A closed connection stays in the watch sets, and dispatch skips it: it
    is not brought back and every live watcher is still served.
  */
  lemma {:induction false} CloseThenDispatch(s: WsState, wsId: string, deskId: string)
    ensures var s1 := s.(conns := s.conns - {wsId});
      && s1.watchers == s.watchers
      && wsId !in Dispatched(s1, Some(Notification(deskId)))
      && forall c :: c in s1.conns && c in WatchersOf(s.watchers, deskId) ==>
           Dispatched(s1, Some(Notification(deskId)))[c] == s.conns[c] + [Remind]
  {
    var s1 := s.(conns := s.conns - {wsId});
    forall c | c in s1.conns && c in WatchersOf(s.watchers, deskId)
      ensures Dispatched(s1, Some(Notification(deskId)))[c] == s.conns[c] + [Remind]
    {
      assert c in DispatchTargets(s1.conns, s1.watchers, deskId);
    }
  }

  /** The read loop returns as soon as its connection is gone, changing nothing. */
  lemma ServeStopsWhenClosed(s: WsState, wsId: string, inbox: seq<ReadResult>, deskCount: string -> int)
    requires wsId !in s.conns
    ensures Serve(s, wsId, inbox, deskCount) == Served(s, Stopped)
  {
  }

  /**
    The read loop never adds or revives a connection, and stops for good at
    the first failed read or close frame.
  */
  lemma {:induction false} ServeKeepsConnections(s: WsState, wsId: string, inbox: seq<ReadResult>, deskCount: string -> int)
    ensures Serve(s, wsId, inbox, deskCount).state.conns.Keys <= s.conns.Keys
    ensures Serve(s, wsId, inbox, deskCount).state.conns.Keys - {wsId} == s.conns.Keys - {wsId}
    ensures Serve(s, wsId, inbox, deskCount).end == StillReading ==>
      forall i :: 0 <= i < |inbox| ==> inbox[i].Received?
    decreases |inbox|
  {
    if wsId in s.conns && inbox != [] && inbox[0].Received? {
      var m := inbox[0].m;
      var s1 := HandleMessage(s, wsId, m, deskCount(m.payload));
      assert s1.conns.Keys == s.conns.Keys;
      ServeKeepsConnections(s1, wsId, inbox[1..], deskCount);
      if Serve(s, wsId, inbox, deskCount).end == StillReading {
        forall i | 0 <= i < |inbox| ensures inbox[i].Received? {
          if i > 0 { assert inbox[1..][i - 1] == inbox[i]; }
        }
      }
    }
  }

  // ---------------------------------------------------------------------
  // The registries as objects
  // ---------------------------------------------------------------------

  class ConnectionRegistry {
    var wsMap: Outboxes

    constructor ()
      ensures wsMap == map[]
    {
      wsMap := map[];
    }

    /** Store a new connection under `wsId`; its first push is CONNECTED with its id. */
    method Register(wsId: string)
      modifies this
      ensures wsMap == old(wsMap)[wsId := [ConnectedMessage(wsId)]]
    {
      wsMap := wsMap[wsId := [ConnectedMessage(wsId)]];
    }

    /** The close handler: delete `wsId` from `wsMap`, and nothing else. */
    method Close(wsId: string)
      modifies this
      ensures wsMap == old(wsMap) - {wsId}
    {
      wsMap := wsMap - {wsId};
    }

    /** Write `m` to the connection; write errors are only logged. */
    method Push(wsId: string, m: WSMessage)
      requires wsId in wsMap
      modifies this
      ensures wsMap == Sent(old(wsMap), wsId, m)
    {
      wsMap := wsMap[wsId := wsMap[wsId] + [m]];
    }
  }

  class WatchRegistry {
    var deviceNotifyConnMap: Watchers

    constructor ()
      ensures deviceNotifyConnMap == map[]
    {
      deviceNotifyConnMap := map[];
    }

    method Watch(deskId: string, wsId: string)
      modifies this
      ensures deviceNotifyConnMap == Watched(old(deviceNotifyConnMap), deskId, wsId)
    {
      if deskId !in deviceNotifyConnMap || |deviceNotifyConnMap[deskId]| == 0 {
        deviceNotifyConnMap := deviceNotifyConnMap[deskId := {}];
      }
      deviceNotifyConnMap := deviceNotifyConnMap[deskId := deviceNotifyConnMap[deskId] + {wsId}];
    }

    /** Removes `wsId` from the desk's set, creating an empty set for an unknown desk. */
    method Unwatch(deskId: string, wsId: string)
      modifies this
      ensures deviceNotifyConnMap == Unwatched(old(deviceNotifyConnMap), deskId, wsId)
    {
      if deskId !in deviceNotifyConnMap || |deviceNotifyConnMap[deskId]| == 0 {
        deviceNotifyConnMap := deviceNotifyConnMap[deskId := {}];
      }
      deviceNotifyConnMap := deviceNotifyConnMap[deskId := deviceNotifyConnMap[deskId] - {wsId}];
    }
  }

  /** The GET /ws handler after a successful upgrade. */
  method Connect(conns: ConnectionRegistry, wsId: string)
    modifies conns
    ensures conns.wsMap == old(conns.wsMap)[wsId := [ConnectedMessage(wsId)]]
  {
    conns.Register(wsId);
  }

  /** One pass of the read loop's switch for a message read on `wsId`. */
  method ServeMessage(conns: ConnectionRegistry, watch: WatchRegistry, wsId: string, m: WSMessage, deskCount: int)
    requires wsId in conns.wsMap
    modifies conns, watch
    ensures WsState(conns.wsMap, watch.deviceNotifyConnMap)
         == HandleMessage(old(WsState(conns.wsMap, watch.deviceNotifyConnMap)), wsId, m, deskCount)
  {
    if m.msgType == "WATCH_DESK" {
      if deskCount <= 0 {
        conns.Push(wsId, WatchDeskFail);
      } else {
        watch.Watch(m.payload, wsId);
        conns.Push(wsId, WatchDeskSuccess);
      }
    } else if m.msgType == "UNWATCH_DESK" {
      watch.Unwatch(m.payload, wsId);
    }
  }

  /** `serveWebSocket`: read and handle messages until the connection is gone or a read fails. */
  method ServeWebSocket(conns: ConnectionRegistry, watch: WatchRegistry, wsId: string,
                        inbox: seq<ReadResult>, deskCount: string -> int) returns (end: LoopEnd)
    modifies conns, watch
    ensures Served(WsState(conns.wsMap, watch.deviceNotifyConnMap), end)
         == Serve(old(WsState(conns.wsMap, watch.deviceNotifyConnMap)), wsId, inbox, deskCount)
  {
    ghost var goal := Serve(WsState(conns.wsMap, watch.deviceNotifyConnMap), wsId, inbox, deskCount);
    var i := 0;
    while true
      invariant 0 <= i <= |inbox|
      invariant Serve(WsState(conns.wsMap, watch.deviceNotifyConnMap), wsId, inbox[i..], deskCount) == goal
      decreases |inbox| - i
    {
      if wsId !in conns.wsMap {
        return Stopped;
      }
      if i == |inbox| {
        return StillReading;
      }
      match inbox[i] {
        case ReadFailed =>
          return Stopped;
        case CloseReceived =>
          conns.Close(wsId);
          return Stopped;
        case Received(m) =>
          ServeMessage(conns, watch, wsId, m, deskCount(m.payload));
      }
      assert inbox[i..][1..] == inbox[i + 1..];
      i := i + 1;
    }
  }

  /**
    The notification callback: for each watcher of the payload's desk that
    is still in `wsMap`, push one reminder; skip the others.
  */
  method Dispatch(conns: ConnectionRegistry, watch: WatchRegistry, decoded: Option<Notification>)
    modifies conns
    ensures conns.wsMap == Dispatched(WsState(old(conns.wsMap), watch.deviceNotifyConnMap), decoded)
  {
    if decoded.None? {
      return;
    }
    var deskId := decoded.value.deskId;
    ghost var before := conns.wsMap;
    var remaining := WatchersOf(watch.deviceNotifyConnMap, deskId);
    while remaining != {}
      invariant remaining <= WatchersOf(watch.deviceNotifyConnMap, deskId)
      invariant conns.wsMap.Keys == before.Keys
      invariant forall c :: c in before ==>
        conns.wsMap[c] == if c in DispatchTargets(before, watch.deviceNotifyConnMap, deskId) && c !in remaining
                          then before[c] + [Remind] else before[c]
      decreases remaining
    {
      var wsId :| wsId in remaining;
      if wsId in conns.wsMap {
        conns.Push(wsId, Remind);
      }
      remaining := remaining - {wsId};
    }
  }
}
