/** The live-stream page: one socket to the inference service, a periodic
    capture-and-send timer whose id is kept in session storage, and the latest
    result on display. Browser facilities (socket, camera, canvas, timers) are
    reduced to the events that reach the page's handlers. */
module Videos {
  import opened Js
  import opened Text

  /** One entry of the operation log: a fixed text, or the `错误: ${data.error}` line
      that embeds a value taken from a message. The time-of-day prefix is not modelled. */
  datatype LogEntry = Note(text: string) | ErrorNote(value: Json)

  /** `wsRef.current`: no socket (`null`), or a socket whose `readyState` is OPEN or not. */
  datatype SocketRef = NoSocket | Socket(open: bool)

  /** The three values an inbound message may update; `JNull` is `null`. */
  datatype Display = Display(headUpRate: Json, error: Json, visualization: Json)

  /** The state of the capture loop: the flag, session storage and the live intervals. */
  datatype Capture = Capture(processing: bool, session: map<string, string>, timers: set<int>)

  /** The state of the connection: the flag, the socket, its URL, the camera stream,
      the frame encodings still pending and the number of frames sent. */
  datatype Link = Link(connected: bool, socket: SocketRef, endpoint: string, streaming: bool,
                       pendingBlobs: nat, framesSent: nat)

  const ConnectingLog := "正在建立连接..."
  const OpenLog := "WebSocket 连接已建立"
  const CameraRequestLog := "正在请求摄像头权限..."
  const CameraStartedLog := "摄像头已启动"
  const CameraFailedLog := "摄像头启动失败"
  const CameraErrorText := "无法启动摄像头，请检查浏览器权限设置"
  /** The source's template literal lacks braces, so this line is logged as written. */
  const VisualizationLog := "visualization data received $data.visualization$"
  const VisualizationReceivedLog := "接收到可视化结果"
  const InvalidMessageLog := "收到无效消息格式"
  const ClosedLog := "WebSocket 连接已关闭"
  const SocketErrorText := "WebSocket 连接错误"
  const SocketErrorLog := "WebSocket 错误"
  const NotReadyText := "请先连接 WebSocket 并启动摄像头"
  const StartLog := "开始检测抬头率..."
  const StopLog := "已停止检测"
  const IntervalKey := "frameInterval"
  const StreamEndpoint := "ws://localhost:3001/api/video/stream?token="

  /** A message the handler cannot use: `JSON.parse` threw (`None`), or the text parsed
      to `null`, whose first property read throws. */
  predicate Malformed(msg: Option<Json>) {
    msg.None? || msg.value.JNull?
  }

  /** What `onmessage` does to the displayed values. */
  function ApplyMessage(d: Display, msg: Option<Json>): (r: Display)
    ensures Malformed(msg) ==> r == d
    ensures !Malformed(msg) && Get(msg.value, "head_up_rate").Some? ==>
              r.headUpRate == Get(msg.value, "head_up_rate").value
    ensures (Malformed(msg) || Get(msg.value, "head_up_rate").None?) ==> r.headUpRate == d.headUpRate
    ensures r.visualization != d.visualization ==>
              !Malformed(msg) && TruthyOpt(Get(msg.value, "visualization")) &&
              r.visualization == Get(msg.value, "visualization").value
    ensures !Malformed(msg) && TruthyOpt(Get(msg.value, "visualization")) ==>
              r.visualization == Get(msg.value, "visualization").value
    ensures r.error != d.error ==>
              !Malformed(msg) && TruthyOpt(Get(msg.value, "error")) && r.error == Get(msg.value, "error").value
    ensures !Malformed(msg) && TruthyOpt(Get(msg.value, "error")) ==> r.error == Get(msg.value, "error").value
  {
    if Malformed(msg) then d
    else
      var data := msg.value;
      var rate := Get(data, "head_up_rate");
      var visualization := Get(data, "visualization");
      var error := Get(data, "error");
      Display(if rate.Some? then rate.value else d.headUpRate,
              if TruthyOpt(error) then error.value else d.error,
              if TruthyOpt(visualization) then visualization.value else d.visualization)
  }

  /** The log lines `onmessage` appends, in order. */
  function MessageLog(msg: Option<Json>): (r: seq<LogEntry>)
    ensures |r| >= 1
    ensures Malformed(msg) ==> r == [Note(InvalidMessageLog)]
    ensures !Malformed(msg) ==> r[0] == Note(VisualizationLog)
  {
    if Malformed(msg) then [Note(InvalidMessageLog)]
    else
      var visualization := Get(msg.value, "visualization");
      var error := Get(msg.value, "error");
      [Note(VisualizationLog)]
      + (if TruthyOpt(visualization) then [Note(VisualizationReceivedLog)] else [])
      + (if TruthyOpt(error) then [ErrorNote(error.value)] else [])
  }

  /** Processing messages one after the other, in arrival order. */
  function ApplyAll(d: Display, msgs: seq<Option<Json>>): Display
    decreases |msgs|
  {
    if msgs == [] then d else ApplyAll(ApplyMessage(d, msgs[0]), msgs[1..])
  }

  /** The displayed values, one field at a time. */
  datatype Field = Rate | Error | Visualization

  function Pick(f: Field, d: Display): Json {
    match f
    case Rate => d.headUpRate
    case Error => d.error
    case Visualization => d.visualization
  }

  /** The value one message writes into field `f`, if it writes one. */
  function UpdateOf(f: Field, msg: Option<Json>): Option<Json> {
    if Malformed(msg) then None
    else
      match f
      case Rate => Get(msg.value, "head_up_rate")
      case Error => if TruthyOpt(Get(msg.value, "error")) then Get(msg.value, "error") else None
      case Visualization =>
        if TruthyOpt(Get(msg.value, "visualization")) then Get(msg.value, "visualization") else None
  }

  /** The reference for last-write-wins: the value written by the LAST message that
      writes field `f`, or `init` when none does. */
  function Latest(f: Field, msgs: seq<Option<Json>>, init: Json): Json
    decreases |msgs|
  {
    if msgs == [] then init
    else if UpdateOf(f, msgs[|msgs| - 1]).Some? then UpdateOf(f, msgs[|msgs| - 1]).value
    else Latest(f, msgs[..|msgs| - 1], init)
  }

  lemma UpdateOfSound(f: Field, d: Display, msg: Option<Json>)
    ensures Pick(f, ApplyMessage(d, msg)) ==
            if UpdateOf(f, msg).Some? then UpdateOf(f, msg).value else Pick(f, d)
  {
  }

  /** Looking for the last write in `[m] + rest` is looking in `rest` starting from
      what `m` leaves behind. */
  lemma {:induction false} LatestCons(f: Field, d: Display, m: Option<Json>, rest: seq<Option<Json>>)
    ensures Latest(f, [m] + rest, Pick(f, d)) == Latest(f, rest, Pick(f, ApplyMessage(d, m)))
    decreases |rest|
  {
    UpdateOfSound(f, d, m);
    var all := [m] + rest;
    if rest == [] {
      assert all[..|all| - 1] == [];
    } else {
      assert all[|all| - 1] == rest[|rest| - 1];
      assert all[..|all| - 1] == [m] + rest[..|rest| - 1];
      LatestCons(f, d, m, rest[..|rest| - 1]);
    }
  }

  /** Last-write-wins: after any sequence of messages every displayed field holds the
      value of the last message that wrote it, or its earlier value if none did;
      errors never erase a rate or an image, and malformed messages write nothing. */
  lemma {:induction false} ApplyAllIsLatest(f: Field, d: Display, msgs: seq<Option<Json>>)
    ensures Pick(f, ApplyAll(d, msgs)) == Latest(f, msgs, Pick(f, d))
    decreases |msgs|
  {
    if msgs != [] {
      ApplyAllIsLatest(f, ApplyMessage(d, msgs[0]), msgs[1..]);
      assert msgs == [msgs[0]] + msgs[1..];
      LatestCons(f, d, msgs[0], msgs[1..]);
    }
  }

  /** A report of a good rate followed by an error report: the error is shown and the
      rate stays. */
  lemma ErrorKeepsRate(d: Display, rate: real, reason: string)
    requires reason != ""
    ensures var good := Some(JObj([("head_up_rate", JNum(rate)), ("visualization", JStr("")), ("detections", JArr([]))]));
            var bad := Some(JObj([("error", JStr(reason))]));
            var r := ApplyAll(d, [good, bad]);
            r.headUpRate == JNum(rate) && r.error == JStr(reason) && r.visualization == d.visualization
  {
    var members := [("head_up_rate", JNum(rate)), ("visualization", JStr("")), ("detections", JArr([]))];
    var good := Some(JObj(members));
    var bad := Some(JObj([("error", JStr(reason))]));
    assert [good, bad][1..] == [bad];
    assert members[..2] == [("head_up_rate", JNum(rate)), ("visualization", JStr(""))];
    assert members[..2][..1] == [("head_up_rate", JNum(rate))];
    assert Member(members, "visualization") == Member(members[..2], "visualization");
    assert Member(members, "head_up_rate") == Member(members[..2], "head_up_rate")
        == Member(members[..2][..1], "head_up_rate");
    assert Get(good.value, "visualization") == Some(JStr(""));
    assert Get(good.value, "head_up_rate") == Some(JNum(rate));
    assert Get(good.value, "error") == None;
    assert Get(bad.value, "head_up_rate") == None;
    assert Get(bad.value, "visualization") == None;
    assert Get(bad.value, "error") == Some(JStr(reason));
    var d1 := ApplyMessage(d, good);
    assert d1 == Display(JNum(rate), d.error, d.visualization);
    assert ApplyAll(d, [good, bad]) == ApplyAll(d1, [bad]);
    assert ApplyAll(d1, [bad]) == ApplyAll(ApplyMessage(d1, bad), []);
  }

  class StreamPage {
    var connected: bool
    var processing: bool
    var headUpRate: Json
    var error: Json
    var visualization: Json
    var logs: seq<LogEntry>
    /** `window.sessionStorage`. */
    var session: map<string, string>
    /** The ids of the intervals the browser is running for this page. */
    var timers: set<int>
    var socket: SocketRef
    var endpoint: string
    /** `streamRef.current` holds a camera stream. */
    var streaming: bool
    /** `toBlob` callbacks scheduled and not yet run. */
    var pendingBlobs: nat
    var framesSent: nat

    function Shown(): Display
      reads this
    {
      Display(headUpRate, error, visualization)
    }

    function CaptureState(): Capture
      reads this
    {
      Capture(processing, session, timers)
    }

    function LinkState(): Link
      reads this
    {
      Link(connected, socket, endpoint, streaming, pendingBlobs, framesSent)
    }

    /** An interval runs exactly while processing, and it is the one whose id session
        storage holds, so stopping can always find it. */
    ghost predicate Valid()
      reads this
    {
      (!processing ==> timers == {}) &&
      (processing ==> IntervalKey in session && session[IntervalKey] != "" &&
                      AllDigits(session[IntervalKey]) && timers == {DigitsValue(session[IntervalKey])})
    }

    /** The page as first rendered; session storage may hold anything. */
    constructor (initialSession: map<string, string>)
      ensures Valid()
      ensures Shown() == Display(JNull, JNull, JNull) && logs == []
      ensures CaptureState() == Capture(false, initialSession, {})
      ensures LinkState() == Link(false, NoSocket, "", false, 0, 0)
    {
      connected, processing := false, false;
      headUpRate, error, visualization := JNull, JNull, JNull;
      logs := [];
      session, timers := initialSession, {};
      socket, endpoint, streaming := NoSocket, "", false;
      pendingBlobs, framesSent := 0, 0;
    }

    /** The mount effect: without a stored token, redirect to `/auth` and touch nothing. */
    method Mount(token: Option<string>) returns (redirect: Option<string>)
      requires Valid()
      modifies this
      ensures Valid()
      ensures !TruthyText(token) ==> redirect == Some("/auth") && unchanged(this)
      ensures TruthyText(token) ==>
                redirect == None &&
                socket == Socket(false) && endpoint == StreamEndpoint + token.value &&
                logs == old(logs) + [Note(ConnectingLog)] &&
                Shown() == old(Shown()) && CaptureState() == old(CaptureState()) &&
                connected == old(connected) && streaming == old(streaming) &&
                pendingBlobs == old(pendingBlobs) && framesSent == old(framesSent)
    {
      if !TruthyText(token) {
        return Some("/auth");
      }
      InitializeSocket(token);
      redirect := None;
    }

    /** `initializeWebSocket`: a new, not yet open socket to the endpoint with the token
        in its query (`null` when none is stored). */
    method InitializeSocket(token: Option<string>)
      requires Valid()
      modifies this
      ensures Valid()
      ensures socket == Socket(false)
      ensures endpoint == StreamEndpoint + (if token.Some? then token.value else "null")
      ensures logs == old(logs) + [Note(ConnectingLog)]
      ensures Shown() == old(Shown()) && CaptureState() == old(CaptureState())
      ensures connected == old(connected) && streaming == old(streaming)
      ensures pendingBlobs == old(pendingBlobs) && framesSent == old(framesSent)
    {
      logs := logs + [Note(ConnectingLog)];
      endpoint := StreamEndpoint + (if token.Some? then token.value else "null");
      socket := Socket(false);
    }

    /** `onopen` of the socket in `wsRef`: connected, error cleared, camera requested. */
    method OnOpen()
      requires Valid() && socket.Socket?
      modifies this
      ensures Valid()
      ensures connected && socket == Socket(true) && error == JNull
      ensures headUpRate == old(headUpRate) && visualization == old(visualization)
      ensures logs == old(logs) + [Note(OpenLog), Note(CameraRequestLog)]
      ensures CaptureState() == old(CaptureState())
      ensures endpoint == old(endpoint) && streaming == old(streaming)
      ensures pendingBlobs == old(pendingBlobs) && framesSent == old(framesSent)
    {
      socket := Socket(true);
      logs := logs + [Note(OpenLog)];
      connected := true;
      error := JNull;
      logs := logs + [Note(CameraRequestLog)];
    }

    /** `getUserMedia` resolved: the stream is kept; the start is logged once the
        video element (if mounted) has loaded its metadata. */
    method CameraStarted(videoMounted: bool)
      requires Valid()
      modifies this
      ensures Valid()
      ensures streaming
      ensures logs == old(logs) + (if videoMounted then [Note(CameraStartedLog)] else [])
      ensures Shown() == old(Shown()) && CaptureState() == old(CaptureState())
      ensures connected == old(connected) && socket == old(socket) && endpoint == old(endpoint)
      ensures pendingBlobs == old(pendingBlobs) && framesSent == old(framesSent)
    {
      streaming := true;
      if videoMounted {
        logs := logs + [Note(CameraStartedLog)];
      }
    }

    /** `getUserMedia` rejected. */
    method CameraFailed()
      requires Valid()
      modifies this
      ensures Valid()
      ensures error == JStr(CameraErrorText)
      ensures headUpRate == old(headUpRate) && visualization == old(visualization)
      ensures logs == old(logs) + [Note(CameraFailedLog)]
      ensures CaptureState() == old(CaptureState()) && LinkState() == old(LinkState())
    {
      error := JStr(CameraErrorText);
      logs := logs + [Note(CameraFailedLog)];
    }

    /** `onmessage`: the displayed values follow `ApplyMessage`; at least one log line is
        appended after the earlier ones; nothing else changes. */
    method OnMessage(msg: Option<Json>)
      requires Valid()
      modifies this
      ensures Valid()
      ensures Shown() == ApplyMessage(old(Shown()), msg)
      ensures logs == old(logs) + MessageLog(msg)
      ensures CaptureState() == old(CaptureState()) && LinkState() == old(LinkState())
    {
      if Malformed(msg) {
        logs := logs + [Note(InvalidMessageLog)];
        return;
      }
      var data := msg.value;
      var image := Get(data, "visualization");
      var reason := Get(data, "error");
      var added := [Note(VisualizationLog)];
      if TruthyOpt(image) {
        added := added + [Note(VisualizationReceivedLog)];
      }
      if TruthyOpt(reason) {
        added := added + [ErrorNote(reason.value)];
      }
      ShowMessage(data);
      logs := logs + added;
    }

    /** The three display updates of `onmessage` for a non-null message. */
    method ShowMessage(data: Json)
      requires !data.JNull?
      modifies this
      ensures Shown() == ApplyMessage(old(Shown()), Some(data))
      ensures logs == old(logs) && CaptureState() == old(CaptureState()) && LinkState() == old(LinkState())
    {
      ghost var target := ApplyMessage(Shown(), Some(data));
      var rate := Get(data, "head_up_rate");
      if rate.Some? {
        headUpRate := rate.value;
      }
      var image := Get(data, "visualization");
      if TruthyOpt(image) {
        visualization := image.value;
      }
      var reason := Get(data, "error");
      if TruthyOpt(reason) {
        error := reason.value;
      }
      assert Shown() == target;
    }

    /** `onclose`: disconnected; processing, the interval and the display stay. The event
        may come from `current`ly held socket or from one already replaced. */
    method OnClose(current: bool)
      requires Valid()
      modifies this
      ensures Valid()
      ensures !connected
      ensures socket == if current && old(socket).Socket? then Socket(false) else old(socket)
      ensures logs == old(logs) + [Note(ClosedLog)]
      ensures Shown() == old(Shown()) && CaptureState() == old(CaptureState())
      ensures endpoint == old(endpoint) && streaming == old(streaming)
      ensures pendingBlobs == old(pendingBlobs) && framesSent == old(framesSent)
    {
      if current && socket.Socket? {
        socket := Socket(false);
      }
      logs := logs + [Note(ClosedLog)];
      connected := false;
    }

    /** `onerror`: disconnected with the fixed error text; rate and image stay. */
    method OnError(current: bool)
      requires Valid()
      modifies this
      ensures Valid()
      ensures !connected && error == JStr(SocketErrorText)
      ensures headUpRate == old(headUpRate) && visualization == old(visualization)
      ensures socket == if current && old(socket).Socket? then Socket(false) else old(socket)
      ensures logs == old(logs) + [Note(SocketErrorLog)]
      ensures CaptureState() == old(CaptureState())
      ensures endpoint == old(endpoint) && streaming == old(streaming)
      ensures pendingBlobs == old(pendingBlobs) && framesSent == old(framesSent)
    {
      if current && socket.Socket? {
        socket := Socket(false);
      }
      error := JStr(SocketErrorText);
      logs := logs + [Note(SocketErrorLog)];
      connected := false;
    }

    /** `startProcessing`, reachable only while its button is enabled (not processing).
        Not connected, or the video and canvas elements missing: only the error is set.
        Otherwise the new interval `id` runs and its id is stored as a decimal string. */
    method StartProcessing(elementsMounted: bool, id: nat)
      requires Valid() && !processing
      modifies this
      ensures Valid()
      ensures !(connected && elementsMounted) ==>
                error == JStr(NotReadyText) && timers == {} && !processing &&
                session == old(session) && logs == old(logs) &&
                headUpRate == old(headUpRate) && visualization == old(visualization)
      ensures connected && elementsMounted ==>
                processing && timers == {id} && session == old(session)[IntervalKey := NatToString(id)] &&
                logs == old(logs) + [Note(StartLog)] && Shown() == old(Shown())
      ensures LinkState() == old(LinkState())
    {
      if !connected || !elementsMounted {
        error := JStr(NotReadyText);
        return;
      }
      processing := true;
      logs := logs + [Note(StartLog)];
      timers := timers + {id};
      session := session[IntervalKey := NatToString(id)];
      DigitsValueOfNatToString(id);
    }

    /** `parseInt` of the stored interval id; an id this page stored gives its number back. */
    static method ParseIntervalId(text: string) returns (handle: Option<int>)
      ensures text != "" && AllDigits(text) ==> handle == Some(DigitsValue(text))
    {
      handle := ParseInt(text);
      if text != "" && AllDigits(text) {
        ParseIntOfDigits(text);
      }
    }

    /** The first half of `stopProcessing`: a non-empty stored id is parsed, that
        interval cleared and the key removed. Afterwards no interval runs. */
    method ClearStoredInterval()
      requires Valid()
      modifies this
      ensures timers == {}
      ensures session == if IntervalKey in old(session) && old(session)[IntervalKey] != ""
                         then old(session) - {IntervalKey} else old(session)
      ensures processing == old(processing) && Shown() == old(Shown()) && logs == old(logs)
      ensures LinkState() == old(LinkState())
    {
      var stored := if IntervalKey in session then Some(session[IntervalKey]) else None;
      if TruthyText(stored) {
        var handle := ParseIntervalId(stored.value);
        if handle.Some? {
          timers := timers - {handle.value};
        }
        session := session - {IntervalKey};
      }
    }

    /** `stopProcessing`: the stored interval is cleared and its key removed; no interval
        is left running, processing is off and the image is cleared. */
    method StopProcessing()
      requires Valid()
      modifies this
      ensures Valid()
      ensures !processing && timers == {} && visualization == JNull
      ensures session == if IntervalKey in old(session) && old(session)[IntervalKey] != ""
                         then old(session) - {IntervalKey} else old(session)
      ensures headUpRate == old(headUpRate) && error == old(error)
      ensures logs == old(logs) + [Note(StopLog)]
      ensures LinkState() == old(LinkState())
    {
      ClearStoredInterval();
      processing := false;
      visualization := JNull;
      logs := logs + [Note(StopLog)];
    }

    /** One tick of a live interval (`captureAndSendFrame`): a frame is drawn and its
        encoding scheduled only when the elements exist, a socket is held and OPEN, and a
        2D context is available; nothing is sent here. */
    method CaptureFrame(elementsMounted: bool, hasContext: bool) returns (scheduled: bool)
      requires Valid() && timers != {}
      modifies this
      ensures Valid()
      ensures scheduled == (elementsMounted && socket == Socket(true) && hasContext)
      ensures pendingBlobs == old(pendingBlobs) + (if scheduled then 1 else 0)
      ensures Shown() == old(Shown()) && CaptureState() == old(CaptureState()) && logs == old(logs)
      ensures connected == old(connected) && socket == old(socket) && endpoint == old(endpoint)
      ensures streaming == old(streaming) && framesSent == old(framesSent)
    {
      if !elementsMounted || socket != Socket(true) {
        return false;
      }
      if !hasContext {
        return false;
      }
      pendingBlobs := pendingBlobs + 1;
      scheduled := true;
    }

    /** The `toBlob` callback: the frame is sent only if encoding produced a blob and a
        socket is held and OPEN at this later moment. */
    method BlobReady(blob: bool) returns (sent: bool)
      requires Valid() && pendingBlobs > 0
      modifies this
      ensures Valid()
      ensures sent == (blob && socket == Socket(true))
      ensures framesSent == old(framesSent) + (if sent then 1 else 0)
      ensures pendingBlobs == old(pendingBlobs) - 1
      ensures Shown() == old(Shown()) && CaptureState() == old(CaptureState()) && logs == old(logs)
      ensures connected == old(connected) && socket == old(socket) && endpoint == old(endpoint)
      ensures streaming == old(streaming)
    {
      pendingBlobs := pendingBlobs - 1;
      sent := blob && socket == Socket(true);
      if sent {
        framesSent := framesSent + 1;
      }
    }

    /** `cleanupResources` (also the unmount effect): stop processing, then drop the
        socket and the camera stream; `connected` is left to the socket's own close event. */
    method CleanupResources()
      requires Valid()
      modifies this
      ensures Valid()
      ensures !processing && timers == {} && visualization == JNull
      ensures socket == NoSocket && !streaming
      ensures session == if IntervalKey in old(session) && old(session)[IntervalKey] != ""
                         then old(session) - {IntervalKey} else old(session)
      ensures headUpRate == old(headUpRate) && error == old(error)
      ensures logs == old(logs) + [Note(StopLog)]
      ensures connected == old(connected) && endpoint == old(endpoint)
      ensures pendingBlobs == old(pendingBlobs) && framesSent == old(framesSent)
    {
      StopProcessing();
      if socket.Socket? {
        socket := NoSocket;
      }
      if streaming {
        streaming := false;
      }
    }

    /** `reconnect`: clean up, then open a fresh socket. */
    method Reconnect(token: Option<string>)
      requires Valid()
      modifies this
      ensures Valid()
      ensures !processing && timers == {} && visualization == JNull && !streaming
      ensures socket == Socket(false)
      ensures endpoint == StreamEndpoint + (if token.Some? then token.value else "null")
      ensures session == if IntervalKey in old(session) && old(session)[IntervalKey] != ""
                         then old(session) - {IntervalKey} else old(session)
      ensures logs == old(logs) + [Note(StopLog), Note(ConnectingLog)]
      ensures headUpRate == old(headUpRate) && error == old(error) && connected == old(connected)
      ensures pendingBlobs == old(pendingBlobs) && framesSent == old(framesSent)
    {
      CleanupResources();
      InitializeSocket(token);
    }
  }
}
