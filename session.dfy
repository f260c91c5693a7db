/** The session surface of the RemoteDesktop portal interface: the fixed
    replies of CreateSession, SelectDevices and Start, the `version`
    property, and the checks ConnectToEIS makes before handing out a socket. */
module Session {
  import opened Base
  import opened Sink

  /** The value of the `version` property. */
  const PORTAL_VERSION: u32 := 2

  /** The device types granted by SelectDevices and Start: keyboard (1),
      pointer (2) and touchscreen (4). */
  const ALL_DEVICE_TYPES: u32 := 7

  /** The D-Bus error name every failure of the interface carries. */
  const ERROR_FAILED: string := "org.freedesktop.portal.Error.Failed"

  /** The variant values the replies put in their result dictionaries. */
  datatype Variant = ObjectPath(path: string) | Uint32(value: u32)

  /** A request reply: a response code (0 is success) and its results. */
  datatype Reply = Reply(status: u32, results: map<string, Variant>)

  /** The property getter of `version`. */
  function Version(): (v: u32)
    ensures v == 2
  {
    PORTAL_VERSION
  }

  /** CreateSession: success, echoing the session handle and nothing else. */
  function CreateSession(request: string, session: string, appId: string, options: map<string, Variant>): (r: Reply)
    ensures r.status == 0
    ensures r.results.Keys == {"session_handle"}
    ensures r.results["session_handle"] == ObjectPath(session)
  {
    Reply(0, map["session_handle" := ObjectPath(session)])
  }

  /** SelectDevices: success, granting all three device types. */
  function SelectDevices(request: string, session: string, appId: string, options: map<string, Variant>): (r: Reply)
    ensures r.status == 0
    ensures r.results.Keys == {"types"}
    ensures r.results["types"] == Uint32(7)
  {
    Reply(0, map["types" := Uint32(ALL_DEVICE_TYPES)])
  }

  /** Start: success, reporting all three device types as started. */
  function Start(request: string, session: string, appId: string, parentWindow: string, options: map<string, Variant>): (r: Reply)
    ensures r.status == 0
    ensures r.results.Keys == {"devices"}
    ensures r.results["devices"] == Uint32(7)
  {
    Reply(0, map["devices" := Uint32(ALL_DEVICE_TYPES)])
  }

  /** The replies ignore the request handle, the application id, the parent
      window and the options; only CreateSession depends on the session handle. */
  lemma RepliesIgnoreArguments(
    req1: string, req2: string, sess1: string, sess2: string, app1: string, app2: string,
    parent1: string, parent2: string, opts1: map<string, Variant>, opts2: map<string, Variant>)
    ensures CreateSession(req1, sess1, app1, opts1) == CreateSession(req2, sess1, app2, opts2)
    ensures CreateSession(req1, sess1, app1, opts1) == CreateSession(req2, sess2, app2, opts2) <==> sess1 == sess2
    ensures SelectDevices(req1, sess1, app1, opts1) == SelectDevices(req2, sess2, app2, opts2)
    ensures Start(req1, sess1, app1, parent1, opts1) == Start(req2, sess2, app2, parent2, opts2)
  {
    if CreateSession(req1, sess1, app1, opts1) == CreateSession(req2, sess2, app2, opts2) {
      assert CreateSession(req1, sess1, app1, opts1).results["session_handle"] == ObjectPath(sess1);
      assert CreateSession(req2, sess2, app2, opts2).results["session_handle"] == ObjectPath(sess2);
    }
  }

  /** A D-Bus error: its name and its message. */
  datatype PortalError = PortalError(name: string, message: string)

  /** What the `socketpair` call returned: failure, or the two ends. */
  datatype SocketPair = PairFailed | Pair(clientFd: int, serverFd: int)

  /** The effects ConnectToEIS has besides its reply, in order. */
  datatype Action = CreateSocketPair | StartEisServer(serverFd: int)

  /** The reply of ConnectToEIS (the client end of the socket pair, or an
      error) and the effects it had. */
  datatype ConnectOutcome = ConnectOutcome(reply: Result<int, PortalError>, actions: seq<Action>)

  /** ConnectToEIS, given what `socketpair` would return. */
  function ConnectToEis(d: Devices, pair: SocketPair): (r: ConnectOutcome)
    // every failure is the portal's generic error
    ensures r.reply.Failure? ==> r.reply.error.name == ERROR_FAILED
    // a missing device fails before any socket is created
    ensures !(d.pointer && d.keyboard) ==>
      r.reply == Failure(PortalError("org.freedesktop.portal.Error.Failed", "Virtual devices not available")) &&
      r.actions == []
    // a socket pair is created exactly when both devices are present
    ensures CreateSocketPair in r.actions <==> d.pointer && d.keyboard
    ensures d.pointer && d.keyboard && pair.PairFailed? ==>
      r.reply == Failure(PortalError("org.freedesktop.portal.Error.Failed", "Failed to create socket pair")) &&
      r.actions == [CreateSocketPair]
    // success exactly when both devices are present and the pair was created;
    // the client gets one end, the EIS server is started on the other
    ensures r.reply.Success? <==> d.pointer && d.keyboard && pair.Pair?
    ensures r.reply.Success? ==>
      r.reply.value == pair.clientFd && r.actions == [CreateSocketPair, StartEisServer(pair.serverFd)]
  {
    if !d.pointer || !d.keyboard then
      ConnectOutcome(Failure(PortalError(ERROR_FAILED, "Virtual devices not available")), [])
    else
      match pair
      case PairFailed =>
        ConnectOutcome(Failure(PortalError(ERROR_FAILED, "Failed to create socket pair")), [CreateSocketPair])
      case Pair(client, server) =>
        ConnectOutcome(Success(client), [CreateSocketPair, StartEisServer(server)])
  }
}
