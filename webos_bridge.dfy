/**
 * The LG webOS pointer bridge (`WebOSPointerBridge`): it receives the
 * touchpad's JSON messages and forwards them to the TV, as pointer-socket
 * commands, IME socket messages or requests on the TV's session socket.
 *
 * Sockets are modelled by whether they are open; what the bridge writes to
 * each one is recorded in a log field. What the TV answers (pairing replies,
 * whether an IME or insert/delete request succeeds) is supplied by the caller.
 */
module WebOSBridge {
  import opened Wrappers
  import opened Json
  import opened Rounding
  import opened PointerChunks
  import opened PointerCommands

  const ScrollScale: real := 0.005
  const DefaultOrigin: string := "https://www.lge.com"
  const PointerUri: string := "ssap://com.webos.service.networkinput/getPointerInputSocket"
  const ImeUri: string := "ssap://com.webos.service.ime/registerRemoteKeyboard"

  /**
   * `_origin_header`: an explicitly empty origin suppresses the header, a
   * configured origin is sent as it is, and with no origin configured the LG
   * origin is sent only when a default is asked for.
   */
  function OriginHeader(origin: Option<string>, sendDefault: bool): (r: Option<string>)
    ensures r != Some("")
    ensures origin.Some? && origin.value != "" ==> r == origin
    ensures r.None? <==> origin == Some("") || (origin.None? && !sendDefault)
    ensures r.Some? && r != origin ==> origin.None? && r == Some(DefaultOrigin)
  {
    if origin == Some("") then None
    else if origin.Some? then origin
    else if sendDefault then Some(DefaultOrigin)
    else None
  }

  /** The command line's `--origin` option: left out, given with no value, or given a value. */
  datatype OriginFlag = Omitted | GivenEmpty | Given(value: string)

  /**
   * The origin the command line hands the bridge, as written: the option's
   * value (None when omitted, "" when given empty) passed through `or None`,
   * which turns "" into None.
   */
  function CliOrigin(flag: OriginFlag): (o: Option<string>)
    ensures o != Some("")
    ensures flag.Given? && flag.value != "" ==> o == Some(flag.value)
  {
    match flag
    case Omitted => None
    case GivenEmpty => None
    case Given(v) => if v == "" then None else Some(v)
  }

  /**
   * As written, `--origin` with no value cannot be told apart from no
   * `--origin` at all, and the pointer and IME sockets still send the LG origin.
   */
  lemma EmptyOriginFlagSendsDefault()
    ensures CliOrigin(GivenEmpty) == CliOrigin(Omitted)
    ensures OriginHeader(CliOrigin(GivenEmpty), true) == Some(DefaultOrigin)
  {
  }

  /** The origin the command line should hand the bridge: the option's value unchanged. */
  function IntendedCliOrigin(flag: OriginFlag): (o: Option<string>)
    ensures flag == Omitted <==> o.None?
    ensures flag == GivenEmpty ==> o == Some("")
    ensures flag.Given? ==> o == Some(flag.value)
  {
    match flag
    case Omitted => None
    case GivenEmpty => Some("")
    case Given(v) => Some(v)
  }

  /**
   * With the intended reading, `--origin` given empty sends no Origin header on
   * any socket, a non-empty value is sent everywhere, and only an omitted
   * option falls back to the LG origin (on the pointer and IME sockets).
   */
  lemma IntendedEmptyOriginSkipsHeader(flag: OriginFlag, sendDefault: bool)
    ensures flag == GivenEmpty ==> OriginHeader(IntendedCliOrigin(flag), sendDefault) == None
    ensures flag.Given? && flag.value != "" ==> OriginHeader(IntendedCliOrigin(flag), sendDefault) == Some(flag.value)
    ensures flag == Omitted ==> OriginHeader(IntendedCliOrigin(flag), sendDefault) == (if sendDefault then Some(DefaultOrigin) else None)
  {
  }

  /** Where a session is opened: TLS or not, and the port. */
  datatype Endpoint = Endpoint(useSsl: bool, port: int)

  /**
   * After a failed attempt to open the session on `failed`: a TLS failure is
   * final (None), a plain one is retried with TLS on the next port.
   */
  function FallbackEndpoint(failed: Endpoint): (r: Option<Endpoint>)
    ensures r.None? <==> failed.useSsl
    ensures r.Some? ==> r.value.useSsl && r.value.port == failed.port + 1
  {
    if failed.useSsl then None
    else Some(Endpoint(true, if failed.port == 3000 then 3001 else failed.port + 1))
  }

  const Manifest: Json := JObj(map[
    "manifestVersion" := JNum(1.0),
    "appId" := JStr("com.codex.touchpad"),
    "vendorId" := JStr("com.codex"),
    "localizedAppNames" := JObj(map["" := JStr("Touchpad Pointer Bridge")]),
    "permissions" := JArr([JStr("LAUNCH"), JStr("CONTROL_INPUT_TEXT"),
                           JStr("CONTROL_MOUSE_AND_KEYBOARD"), JStr("READ_INSTALLED_APPS")]),
    "serial" := JStr("0000")
  ])

  /** The pairing payload: the known client key is sent back only when there is one. */
  function RegisterPayload(clientKey: Json): (p: map<string, Json>)
    ensures "client-key" in p <==> Truthy(clientKey)
    ensures "client-key" in p ==> p["client-key"] == clientKey
    ensures "forcePairing" in p && p["forcePairing"] == JBool(false)
    ensures "pairingType" in p && p["pairingType"] == JStr("PROMPT")
  {
    var base := map["forcePairing" := JBool(false), "pairingType" := JStr("PROMPT"), "manifest" := Manifest];
    if Truthy(clientKey) then base["client-key" := clientKey] else base
  }

  function RegisterMessage(clientKey: Json): Json {
    JObj(map["id" := JStr("register_0"), "type" := JStr("register"), "payload" := JObj(RegisterPayload(clientKey))])
  }

  const PointerSocketRequest: Json :=
    JObj(map["id" := JStr("pointer_0"), "type" := JStr("request"), "uri" := JStr(PointerUri)])

  const ImeSocketRequest: Json :=
    JObj(map["id" := JStr("ime_0"), "type" := JStr("request"), "uri" := JStr(ImeUri)])

  function InsertTextRequest(text: string): Json {
    JObj(map["id" := JStr("ime_insert"), "type" := JStr("request"),
             "uri" := JStr("ssap://com.webos.service.ime/insertText"),
             "payload" := JObj(map["text" := JStr(text)])])
  }

  function DeleteCharactersRequest(count: int): Json {
    JObj(map["id" := JStr("ime_delete"), "type" := JStr("request"),
             "uri" := JStr("ssap://com.webos.service.ime/deleteCharacters"),
             "payload" := JObj(map["count" := JNum(count as real)])])
  }

  /** What the bridge writes on the IME socket for a text insertion. */
  function ImeInsert(text: string): Json {
    JObj(map["type" := JStr("insertText"), "text" := JStr(text)])
  }

  /** How `_register` reads one reply of the TV. */
  datatype Reply = Registered(newKey: Json) | PairingPrompt | Refused

  function ClassifyReply(resp: Json): Reply {
    if !resp.JObj? then Refused
    else
      var kind := Get(resp.fields, "type");
      var payload := GetOr(resp.fields, "payload", JObj(map[]));
      if kind == Some(JStr("registered")) then
        if payload.JObj? then Registered(GetOr(payload.fields, "client-key", JNull)) else Refused
      else if kind == Some(JStr("response")) && payload.JObj?
           && Get(payload.fields, "pairingType") == Some(JStr("PROMPT")) then PairingPrompt
      else Refused
  }

  /**
   * The client key after pairing: a non-empty key from the TV replaces the
   * old one (the source also compares the two, but only to decide whether to
   * save the key); otherwise the old key stays.
   */
  function KeptKey(current: Json, newKey: Json): (k: Json)
    ensures Truthy(newKey) ==> k == newKey
    ensures !Truthy(newKey) ==> k == current
  {
    if Truthy(newKey) && newKey != current then newKey else current
  }

  /** Pairing succeeds on the n-th reply: prompts before it, `registered` at it. */
  predicate PairedAfter(replies: seq<Json>, n: int) {
    && 1 <= n <= |replies|
    && (forall j :: 0 <= j < n - 1 ==> ClassifyReply(replies[j]) == PairingPrompt)
    && ClassifyReply(replies[n - 1]).Registered?
  }

  /** Some reply pairs the client, after nothing but prompts. */
  ghost predicate Pairs(replies: seq<Json>) {
    exists n :: PairedAfter(replies, n)
  }

  /** The session of `_connect_pointer` opens, on the first endpoint or on the plain-to-TLS fallback. */
  predicate SessionOpens(useSsl: bool, h: Handshake) {
    h.firstOk || (!useSsl && h.retryOk)
  }

  /**
   * What `_connect_pointer` sends on the session: nothing when it does not
   * open, else the pairing request, then the pointer-socket request once paired.
   */
  ghost function SessionRequests(clientKey: Json, useSsl: bool, h: Handshake): (reqs: seq<Json>)
    ensures reqs == [] <==> !SessionOpens(useSsl, h)
    ensures reqs != [] ==> reqs[0] == RegisterMessage(clientKey)
    ensures PointerSocketRequest in reqs <==> SessionOpens(useSsl, h) && Pairs(h.replies)
  {
    if !SessionOpens(useSsl, h) then []
    else
      assert RegisterMessage(clientKey).fields["id"] != PointerSocketRequest.fields["id"];
      [RegisterMessage(clientKey)] + (if Pairs(h.replies) then [PointerSocketRequest] else [])
  }

  /** What `_register` ends with over a finite list of replies. */
  datatype RegisterOutcome = Paired(used: nat) | RegisterFailed(at: nat) | AwaitingReply

  /** The outcome of `_connect_ime`'s exchange with the TV. */
  datatype ImeConnect = ImeSocket | NoImeSocket | ImeUnavailable

  /**
   * The TV's side of opening the pointer socket from scratch: whether the
   * session opens on the first or the fallback endpoint, the replies to the
   * pairing request, the pointer socket path it returns and whether
   * connecting to that path succeeds.
   */
  datatype Handshake = Handshake(firstOk: bool, retryOk: bool, replies: seq<Json>, socketPath: string, pointerOk: bool)

  /** The TV's answers while one client message is handled. */
  datatype TvReplies = TvReplies(imeConnect: ImeConnect, imeSendOk: bool, insertAccepted: bool, deleteAccepted: bool)

  /** A client message, as `_handle_client`'s if/elif chain reads it. */
  datatype Request =
    | Skip                 // not JSON: skipped
    | Broken               // raises: not an object, or a dx/dy that float() rejects
    | MoveReq(dx: real, dy: real)
    | ScrollReq(dx: real, dy: real)
    | ClickReq
    | DoubleClickReq
    | TextReq(text: string)
    | KeyReq(key: string)
    | VolumeReq(action: string)
    | NoCommand            // any other message: nothing is sent to the TV

  /** The values of `t` the bridge acts on. */
  const BridgeTypes: set<Option<Json>> :=
    {Some(JStr("move")), Some(JStr("scroll")), Some(JStr("click")), Some(JStr("double_click")),
     Some(JStr("text")), Some(JStr("key")), Some(JStr("volume"))}

  /** A text message whose `text` is a non-empty string. */
  predicate HasText(frame: Frame) {
    && HasType(frame, "text")
    && GetOr(frame.data.fields, "text", JStr("")).JStr?
    && GetOr(frame.data.fields, "text", JStr("")).s != ""
  }

  /** An object message whose member `key` is a string. */
  predicate HasString(frame: Frame, key: string) {
    IsObject(frame) && Get(frame.data.fields, key).Some? && Get(frame.data.fields, key).value.JStr?
  }

  /**
   * The message raises inside the handler: it is JSON but not an object, or a
   * move or scroll whose dx or dy `float()` rejects.
   */
  predicate Raises(frame: Frame) {
    frame.Decoded? &&
    (!frame.data.JObj? ||
     ((HasType(frame, "move") || HasType(frame, "scroll")) &&
      (FloatField(frame.data.fields, "dx").None? || FloatField(frame.data.fields, "dy").None?)))
  }

  /** `_handle_client`'s if/elif chain on one frame. */
  function ClassifyFrame(frame: Frame): (r: Request)
    ensures r == Skip <==> frame.Undecodable?
    ensures r == Broken <==> Raises(frame)
    ensures r.MoveReq? <==>
              HasType(frame, "move") && FloatField(frame.data.fields, "dx").Some? && FloatField(frame.data.fields, "dy").Some?
    ensures r.ScrollReq? <==>
              HasType(frame, "scroll") && FloatField(frame.data.fields, "dx").Some? && FloatField(frame.data.fields, "dy").Some?
    ensures (r.MoveReq? || r.ScrollReq?) ==>
              Some(r.dx) == FloatField(frame.data.fields, "dx") && Some(r.dy) == FloatField(frame.data.fields, "dy")
    ensures r == ClickReq <==> HasType(frame, "click")
    ensures r == DoubleClickReq <==> HasType(frame, "double_click")
    ensures r.TextReq? <==> HasText(frame)
    ensures r.TextReq? ==> r.text != "" && GetOr(frame.data.fields, "text", JStr("")) == JStr(r.text)
    ensures r.KeyReq? <==> HasType(frame, "key") && HasString(frame, "key")
    ensures r.KeyReq? ==> Get(frame.data.fields, "key") == Some(JStr(r.key))
    ensures r.VolumeReq? <==> HasType(frame, "volume") && HasString(frame, "action")
    ensures r.VolumeReq? ==> Get(frame.data.fields, "action") == Some(JStr(r.action))
    ensures (HasType(frame, "right_click") || HasType(frame, "down") || HasType(frame, "up") || HasType(frame, "wake"))
              ==> r == NoCommand
    ensures r == NoCommand <==>
              IsObject(frame) &&
              (|| MessageType(frame) !in BridgeTypes
               || (HasType(frame, "text") && !HasText(frame))
               || (HasType(frame, "key") && !HasString(frame, "key"))
               || (HasType(frame, "volume") && !HasString(frame, "action")))
  {
    match frame
    case Undecodable => Skip
    case Decoded(data) =>
      if !data.JObj? then Broken
      else
        var f := data.fields;
        var t := Get(f, "t");
        if t == Some(JStr("move")) || t == Some(JStr("scroll")) then
          match (FloatField(f, "dx"), FloatField(f, "dy"))
          case (Some(dx), Some(dy)) => if t == Some(JStr("move")) then MoveReq(dx, dy) else ScrollReq(dx, dy)
          case _ => Broken
        else if t == Some(JStr("click")) then ClickReq
        else if t == Some(JStr("double_click")) then DoubleClickReq
        else if t == Some(JStr("text")) then
          match GetOr(f, "text", JStr(""))
          case JStr(s) => if s != "" then TextReq(s) else NoCommand
          case _ => NoCommand
        else if t == Some(JStr("key")) then
          match Get(f, "key")
          case Some(JStr(k)) => KeyReq(k)
          case _ => NoCommand
        else if t == Some(JStr("volume")) then
          match Get(f, "action")
          case Some(JStr(a)) => VolumeReq(a)
          case _ => NoCommand
        else NoCommand
  }

  function ButtonCommands(name: Option<string>): seq<string> {
    match name
    case Some(n) => [ButtonCommand(n)]
    case None => []
  }

  /**
   * The pointer commands `_send_key` sends: nothing when a backspace was
   * already handled by an IME delete, otherwise the mapped button if any.
   */
  function KeyCommands(key: string, imeDeleted: bool): (cmds: seq<string>)
    ensures key == "backspace" && imeDeleted ==> cmds == []
    ensures key != "backspace" || !imeDeleted ==> (cmds != [] <==> key in KeyMap)
    ensures cmds != [] ==> cmds == [ButtonCommand(KeyMap[key])]
  {
    if key == "backspace" && imeDeleted then [] else ButtonCommands(KeyButton(key))
  }

  class Bridge {
    const tvPort: int
    const useSsl: bool
    const origin: Option<string>

    var clientKey: Json           // JNull: no key known yet
    var sessionOpen: bool
    var pointerOpen: bool
    var imeOpen: bool
    var imeFailed: bool
    var scrollRemX: real
    var scrollRemY: real

    var pointerSent: seq<string>  // commands written to the pointer socket
    var sessionSent: seq<Json>    // messages written to the session socket
    var imeSent: seq<Json>        // messages written to the IME socket

    constructor (tvPort: int, useSsl: bool, origin: Option<string>)
      ensures this.tvPort == tvPort && this.useSsl == useSsl && this.origin == origin
      ensures clientKey == JNull && !sessionOpen && !pointerOpen && !imeOpen && !imeFailed
      ensures scrollRemX == 0.0 && scrollRemY == 0.0
      ensures pointerSent == [] && sessionSent == [] && imeSent == []
    {
      this.tvPort, this.useSsl, this.origin := tvPort, useSsl, origin;
      clientKey := JNull;
      sessionOpen, pointerOpen, imeOpen, imeFailed := false, false, false, false;
      scrollRemX, scrollRemY := 0.0, 0.0;
      pointerSent, sessionSent, imeSent := [], [], [];
    }

    /** What one client message can change, as a value. */
    function Snap(): BridgeState
      reads this
    {
      BridgeState(sessionOpen, imeOpen, imeFailed, scrollRemX, scrollRemY, pointerSent, sessionSent, imeSent)
    }

    /** `_send_pointer`, with the pointer socket up. */
    method SendPointer(payload: string)
      modifies this`pointerSent
      ensures pointerSent == old(pointerSent) + [payload]
    {
      pointerSent := pointerSent + [payload];
    }

    /** The send loops of `_send_move` and `_send_scroll`. */
    method SendMotion(m: Motion, chunks: seq<Delta>)
      modifies this`pointerSent
      ensures pointerSent == old(pointerSent) + MotionCommands(m, chunks)
    {
      ghost var start := pointerSent;
      var i := 0;
      while i < |chunks|
        invariant 0 <= i <= |chunks|
        invariant pointerSent == start + MotionCommands(m, chunks[..i])
      {
        MotionCommandsPrefix(m, chunks, i, start);
        SendPointer(MotionCommand(m, chunks[i]));
        i := i + 1;
      }
      assert chunks[..|chunks|] == chunks;
    }

    /** `_send_move`: the rounded move, chunked, one `type:move` command per packet. */
    method SendMove(dx: real, dy: real)
      modifies this`pointerSent
      ensures pointerSent == old(pointerSent) + MotionCommands(Move, Chunks(RoundHalfEven(dx), RoundHalfEven(dy)))
    {
      var chunks := ChunkPointerDelta(RoundHalfEven(dx), RoundHalfEven(dy));
      SendMotion(Move, chunks);
    }

    /**
     * `_send_scroll`: the new state is ScrollForwarded of the old one, whose
     * contract gives the chunked commands, the kept remainders (at most half a
     * unit per axis) and that nothing is lost or sent while both whole parts are zero.
     */
    method SendScroll(dx: real, dy: real)
      modifies this`scrollRemX, this`scrollRemY, this`pointerSent
      ensures Snap() == ScrollForwarded(old(Snap()), dx, dy)
    {
      var scaledX, scaledY := AccumulateScroll(dx, dy);
      if scaledX == 0 && scaledY == 0 {
        return;
      }
      var chunks := ChunkPointerDelta(scaledX, scaledY);
      SendMotion(Scroll, chunks);
    }

    /** The remainder half of `_send_scroll`: add the downscaled deltas and take the rounded whole parts out. */
    method AccumulateScroll(dx: real, dy: real) returns (scaledX: int, scaledY: int)
      modifies this`scrollRemX, this`scrollRemY
      ensures scaledX == ScrollUnits(old(scrollRemX), dx) && scaledY == ScrollUnits(old(scrollRemY), dy)
      ensures scrollRemX == ScrollRemainder(old(scrollRemX), dx) && scrollRemY == ScrollRemainder(old(scrollRemY), dy)
    {
      var accX := scrollRemX + dx * ScrollScale;
      var accY := scrollRemY + dy * ScrollScale;
      scaledX := RoundHalfEven(accX);
      scaledY := RoundHalfEven(accY);
      scrollRemX := accX - scaledX as real;
      scrollRemY := accY - scaledY as real;
    }

    method SendClick()
      modifies this`pointerSent
      ensures pointerSent == old(pointerSent) + [ClickCommand]
    {
      SendPointer(ClickCommand);
    }

    method SendButton(name: string)
      modifies this`pointerSent
      ensures pointerSent == old(pointerSent) + [ButtonCommand(name)]
    {
      SendPointer(ButtonCommand(name));
    }

    /** `_teardown_pointer`: every socket is gone and the IME may be tried again. */
    method TeardownPointer()
      modifies this`pointerOpen, this`imeOpen, this`sessionOpen, this`imeFailed
      ensures !pointerOpen && !imeOpen && !sessionOpen && !imeFailed
    {
      pointerOpen := false;
      imeOpen := false;
      sessionOpen := false;
      imeFailed := false;
    }

    method TeardownIme()
      modifies this`imeOpen
      ensures !imeOpen
    {
      imeOpen := false;
    }

    /**
     * `_connect_ime`: only with a session; a socket path opens the IME socket,
     * a missing path changes nothing, and any failure marks the IME as failed.
     */
    method ConnectIme(outcome: ImeConnect)
      modifies this`imeOpen, this`imeFailed, this`sessionSent
      ensures sessionSent == old(sessionSent) + (if old(sessionOpen) then [ImeSocketRequest] else [])
      ensures imeOpen == (if old(sessionOpen) && outcome != NoImeSocket then outcome == ImeSocket else old(imeOpen))
      ensures imeFailed == (old(imeFailed) || (old(sessionOpen) && outcome == ImeUnavailable))
    {
      if !sessionOpen {
        return;
      }
      sessionSent := sessionSent + [ImeSocketRequest];
      match outcome
      case ImeSocket =>
        imeOpen := true;
      case NoImeSocket =>
      case ImeUnavailable =>
        imeFailed := true;
        imeOpen := false;
    }

    /** `ensure_ime`: once the IME has failed, or while it is open, nothing is tried. */
    method EnsureIme(outcome: ImeConnect)
      modifies this`imeOpen, this`imeFailed, this`sessionSent
      ensures old(imeFailed) || old(imeOpen) ==>
                imeOpen == old(imeOpen) && imeFailed == old(imeFailed) && sessionSent == old(sessionSent)
      ensures !old(imeFailed) && !old(imeOpen) ==>
                && sessionSent == old(sessionSent) + (if old(sessionOpen) then [ImeSocketRequest] else [])
                && imeOpen == (old(sessionOpen) && outcome == ImeSocket)
                && imeFailed == (old(sessionOpen) && outcome == ImeUnavailable)
    {
      if imeFailed {
        return;
      }
      if imeOpen {
        return;
      }
      ConnectIme(outcome);
    }

    /** The session connection of `_connect_pointer`, with its plain-to-TLS fallback. */
    method ConnectSession(firstOk: bool, retryOk: bool) returns (ep: Option<Endpoint>)
      modifies this`sessionOpen
      ensures ep == (if firstOk then Some(Endpoint(useSsl, tvPort))
                     else if useSsl || !retryOk then None
                     else Some(Endpoint(true, tvPort + 1)))
      ensures sessionOpen == (ep.Some? || old(sessionOpen))
    {
      var first := Endpoint(useSsl, tvPort);
      if firstOk {
        sessionOpen := true;
        return Some(first);
      }
      var retry := FallbackEndpoint(first);
      if retry.None? || !retryOk {
        return None;
      }
      sessionOpen := true;
      return retry;
    }

    /**
     * `_register`: sends the pairing request, then reads replies, skipping
     * pairing prompts; the first `registered` reply ends it successfully and
     * any other reply ends it with a failure.
     */
    method Register(replies: seq<Json>) returns (outcome: RegisterOutcome)
      modifies this`clientKey, this`sessionSent
      ensures sessionSent == old(sessionSent) + [RegisterMessage(old(clientKey))]
      ensures outcome.Paired? ==>
                && 1 <= outcome.used <= |replies|
                && (forall j :: 0 <= j < outcome.used - 1 ==> ClassifyReply(replies[j]) == PairingPrompt)
                && ClassifyReply(replies[outcome.used - 1]).Registered?
                && clientKey == KeptKey(old(clientKey), ClassifyReply(replies[outcome.used - 1]).newKey)
      ensures outcome.RegisterFailed? ==>
                && outcome.at < |replies|
                && (forall j :: 0 <= j < outcome.at ==> ClassifyReply(replies[j]) == PairingPrompt)
                && ClassifyReply(replies[outcome.at]) == Refused
                && clientKey == old(clientKey)
      ensures outcome == AwaitingReply ==>
                && (forall j :: 0 <= j < |replies| ==> ClassifyReply(replies[j]) == PairingPrompt)
                && clientKey == old(clientKey)
    {
      sessionSent := sessionSent + [RegisterMessage(clientKey)];
      var i := 0;
      while i < |replies|
        invariant 0 <= i <= |replies|
        invariant forall j :: 0 <= j < i ==> ClassifyReply(replies[j]) == PairingPrompt
        invariant clientKey == old(clientKey)
      {
        match ClassifyReply(replies[i])
        case Registered(newKey) =>
          if Truthy(newKey) && newKey != clientKey {
            clientKey := newKey;
          }
          return Paired(i + 1);
        case PairingPrompt =>
          i := i + 1;
        case Refused =>
          return RegisterFailed(i);
      }
      return AwaitingReply;
    }

    /**
     * `_connect_pointer`: open the session, pair, ask for the pointer socket
     * and open it. It succeeds only when every step does.
     */
    method ConnectPointer(h: Handshake) returns (ok: bool)
      modifies this`sessionOpen, this`clientKey, this`sessionSent, this`pointerOpen
      ensures ok <==> SessionOpens(useSsl, h) && Pairs(h.replies) && h.socketPath != "" && h.pointerOk
      ensures sessionOpen == (old(sessionOpen) || SessionOpens(useSsl, h))
      ensures pointerOpen == (old(pointerOpen) || ok)
      ensures sessionSent == old(sessionSent) + SessionRequests(old(clientKey), useSsl, h)
      ensures SessionOpens(useSsl, h) && Pairs(h.replies) ==>
                exists n :: PairedAfter(h.replies, n) && clientKey == KeptKey(old(clientKey), ClassifyReply(h.replies[n - 1]).newKey)
      ensures !(SessionOpens(useSsl, h) && Pairs(h.replies)) ==> clientKey == old(clientKey)
    {
      var ep := ConnectSession(h.firstOk, h.retryOk);
      if ep.None? {
        return false;
      }
      var reg := Register(h.replies);
      if !reg.Paired? {
        return false;
      }
      assert PairedAfter(h.replies, reg.used);
      sessionSent := sessionSent + [PointerSocketRequest];
      if h.socketPath == "" {
        return false;
      }
      if !h.pointerOk {
        return false;
      }
      pointerOpen := true;
      return true;
    }

    /**
     * `ensure_pointer`: a live pointer socket is kept; otherwise everything is
     * torn down, the IME failure flag is cleared and the connection is rebuilt,
     * the IME socket included.
     */
    method EnsurePointer(alive: bool, h: Handshake, ime: ImeConnect) returns (ok: bool)
      modifies this`sessionOpen, this`clientKey, this`sessionSent, this`pointerOpen, this`imeOpen, this`imeFailed
      ensures old(pointerOpen) && alive ==>
                ok && pointerOpen && sessionOpen == old(sessionOpen) && imeOpen == old(imeOpen)
                && imeFailed == old(imeFailed) && sessionSent == old(sessionSent) && clientKey == old(clientKey)
      ensures !(old(pointerOpen) && alive) ==>
                && pointerOpen == ok
                && (ok <==> SessionOpens(useSsl, h) && Pairs(h.replies) && h.socketPath != "" && h.pointerOk)
                && sessionOpen == SessionOpens(useSsl, h)
                && (!ok ==> !imeOpen && !imeFailed)
                && (ok ==> sessionOpen && imeOpen == (ime == ImeSocket) && imeFailed == (ime == ImeUnavailable))
                && sessionSent == old(sessionSent) + SessionRequests(old(clientKey), useSsl, h) + (if ok then [ImeSocketRequest] else [])
      ensures !(old(pointerOpen) && alive) && SessionOpens(useSsl, h) && Pairs(h.replies) ==>
                exists n :: PairedAfter(h.replies, n) && clientKey == KeptKey(old(clientKey), ClassifyReply(h.replies[n - 1]).newKey)
      ensures !(SessionOpens(useSsl, h) && Pairs(h.replies)) ==> clientKey == old(clientKey)
    {
      if pointerOpen && alive {
        return true;
      }
      TeardownPointer();
      imeFailed := false;
      ok := ConnectPointer(h);
      if !ok {
        return;
      }
      ConnectIme(ime);
    }

    method SendTextIme(text: string, tv: TvReplies) returns (sent: bool)
      modifies this`imeOpen, this`imeFailed, this`sessionSent, this`imeSent
      ensures var tries := !old(imeFailed) && !old(imeOpen) && old(sessionOpen);
              && sent == ((old(imeOpen) || (tries && tv.imeConnect == ImeSocket)) && tv.imeSendOk)
              && imeOpen == sent
              && imeFailed == (old(imeFailed) || (tries && tv.imeConnect == ImeUnavailable))
              && sessionSent == old(sessionSent) + (if tries then [ImeSocketRequest] else [])
              && imeSent == old(imeSent) + (if sent then [ImeInsert(text)] else [])
    {
      EnsureIme(tv.imeConnect);
      if !imeOpen {
        return false;
      }
      if tv.imeSendOk {
        imeSent := imeSent + [ImeInsert(text)];
        return true;
      }
      TeardownIme();
      return false;
    }

    /** `_send_text_request`: an insertText request on the session, if there is one. */
    method SendTextRequest(text: string, accepted: bool) returns (ok: bool)
      modifies this`sessionSent
      ensures ok == (sessionOpen && accepted)
      ensures sessionSent == old(sessionSent) + (if sessionOpen then [InsertTextRequest(text)] else [])
    {
      if !sessionOpen {
        return false;
      }
      sessionSent := sessionSent + [InsertTextRequest(text)];
      return accepted;
    }

    /** `_send_ime_delete(1)`. */
    method SendImeDelete(accepted: bool) returns (ok: bool)
      modifies this`sessionSent
      ensures ok == (sessionOpen && accepted)
      ensures sessionSent == old(sessionSent) + (if sessionOpen then [DeleteCharactersRequest(1)] else [])
    {
      if !sessionOpen {
        return false;
      }
      sessionSent := sessionSent + [DeleteCharactersRequest(1)];
      return accepted;
    }

    /**
     * `_send_text`: the IME socket first, then an insertText request, and only
     * when both fail the escaped text on the pointer socket. The text goes out
     * by exactly one of the three routes.
     */
    method SendText(text: string, tv: TvReplies)
      modifies this`imeOpen, this`imeFailed, this`sessionSent, this`imeSent, this`pointerSent
      ensures var tries := !old(imeFailed) && !old(imeOpen) && old(sessionOpen);
              var viaIme := (old(imeOpen) || (tries && tv.imeConnect == ImeSocket)) && tv.imeSendOk;
              var viaRequest := !viaIme && old(sessionOpen) && tv.insertAccepted;
              && imeSent == old(imeSent) + (if viaIme then [ImeInsert(text)] else [])
              && sessionSent == old(sessionSent) + (if tries then [ImeSocketRequest] else [])
                                + (if !viaIme && old(sessionOpen) then [InsertTextRequest(text)] else [])
              && pointerSent == old(pointerSent) + (if viaIme || viaRequest then [] else [TextCommand(text)])
              && imeOpen == viaIme
              && imeFailed == (old(imeFailed) || (tries && tv.imeConnect == ImeUnavailable))
      ensures Snap() == TextForwarded(old(Snap()), text, tv)
    {
      var done := SendTextIme(text, tv);
      if done {
        return;
      }
      done := SendTextRequest(text, tv.insertAccepted);
      if done {
        return;
      }
      SendPointer(TextCommand(text));
    }

    /** `_send_key`: a backspace is first tried as an IME delete. */
    method SendKey(key: string, tv: TvReplies)
      modifies this`sessionSent, this`pointerSent
      ensures sessionSent == old(sessionSent) + (if key == "backspace" && sessionOpen then [DeleteCharactersRequest(1)] else [])
      ensures pointerSent == old(pointerSent) + KeyCommands(key, sessionOpen && tv.deleteAccepted)
      ensures Snap() == KeyForwarded(old(Snap()), key, tv)
    {
      if key == "backspace" {
        var deleted := SendImeDelete(tv.deleteAccepted);
        if deleted {
          return;
        }
      }
      match KeyButton(key)
      case None =>
      case Some(name) =>
        SendButton(name);
    }

    method SendVolume(action: string)
      modifies this`pointerSent
      ensures pointerSent == old(pointerSent) + ButtonCommands(VolumeButton(action))
    {
      match VolumeButton(action)
      case None =>
      case Some(name) =>
        SendButton(name);
    }

    /**
     * One iteration of `_handle_client`; false when the message raises. The
     * new state is Forward of the old one: exactly what the request's sender
     * writes, on the sockets it writes to.
     */
    method HandleMessage(frame: Frame, tv: TvReplies) returns (ok: bool)
      modifies this`imeOpen, this`imeFailed, this`sessionSent, this`imeSent, this`pointerSent,
               this`scrollRemX, this`scrollRemY
      ensures ok <==> ClassifyFrame(frame) != Broken
      ensures Snap() == Forward(old(Snap()), ClassifyFrame(frame), tv)
      ensures ClassifyFrame(frame).MoveReq? || ClassifyFrame(frame).ScrollReq? || ClassifyFrame(frame).ClickReq?
              || ClassifyFrame(frame).DoubleClickReq? || ClassifyFrame(frame).VolumeReq?  ==>
                sessionSent == old(sessionSent) && imeSent == old(imeSent)
      ensures ClassifyFrame(frame) in {Skip, Broken, NoCommand} ==>
                && pointerSent == old(pointerSent) && sessionSent == old(sessionSent) && imeSent == old(imeSent)
                && scrollRemX == old(scrollRemX) && scrollRemY == old(scrollRemY)
      ensures ClassifyFrame(frame).MoveReq? ==>
                var r := ClassifyFrame(frame);
                pointerSent == old(pointerSent) + MotionCommands(Move, Chunks(RoundHalfEven(r.dx), RoundHalfEven(r.dy)))
      ensures ClassifyFrame(frame).ScrollReq? ==>
                Snap() == ScrollForwarded(old(Snap()), ClassifyFrame(frame).dx, ClassifyFrame(frame).dy)
      ensures ClassifyFrame(frame).TextReq? ==> Snap() == TextForwarded(old(Snap()), ClassifyFrame(frame).text, tv)
      ensures ClassifyFrame(frame) == ClickReq ==> pointerSent == old(pointerSent) + [ClickCommand]
      ensures ClassifyFrame(frame) == DoubleClickReq ==> pointerSent == old(pointerSent) + [ClickCommand, ClickCommand]
      ensures ClassifyFrame(frame).KeyReq? ==>
                pointerSent == old(pointerSent) + KeyCommands(ClassifyFrame(frame).key, sessionOpen && tv.deleteAccepted)
      ensures ClassifyFrame(frame).VolumeReq? ==>
                pointerSent == old(pointerSent) + ButtonCommands(VolumeButton(ClassifyFrame(frame).action))
    {
      ok := Dispatch(ClassifyFrame(frame), tv);
    }

    /** The branches of `_handle_client`'s if/elif chain: the sender for each classified request. */
    method Dispatch(req: Request, tv: TvReplies) returns (ok: bool)
      modifies this`imeOpen, this`imeFailed, this`sessionSent, this`imeSent, this`pointerSent,
               this`scrollRemX, this`scrollRemY
      ensures ok <==> req != Broken
      ensures Snap() == Forward(old(Snap()), req, tv)
    {
      ghost var before := Snap();
      match req {
        case Skip =>
          ok := true;
          assert Snap() == Forward(before, req, tv);
        case Broken =>
          ok := false;
        case MoveReq(dx, dy) =>
          SendMove(dx, dy);
          ok := true;
          assert Snap() == Forward(before, req, tv);
        case ScrollReq(dx, dy) =>
          SendScroll(dx, dy);
          ok := true;
          assert Snap() == Forward(before, req, tv);
        case ClickReq =>
          SendClick();
          ok := true;
          assert Snap() == Forward(before, req, tv);
        case DoubleClickReq =>
          SendClick();
          SendClick();
          ok := true;
          assert Snap() == Forward(before, req, tv);
        case TextReq(text) =>
          SendText(text, tv);
          ok := true;
          assert Snap() == Forward(before, req, tv);
        case KeyReq(key) =>
          SendKey(key, tv);
          ok := true;
          assert Snap() == Forward(before, req, tv);
        case VolumeReq(action) =>
          SendVolume(action);
          ok := true;
          assert Snap() == Forward(before, req, tv);
        case NoCommand =>
          ok := true;
          assert Snap() == Forward(before, req, tv);
      }
    }

    /**
     * `_handle_client`: messages are handled in order until one raises; the
     * handler then ends and the rest of that client's messages are not read.
     * `tv(i)` gives the TV's answers while message i is handled.
     */
    method HandleClient(frames: seq<Frame>, tv: nat -> TvReplies) returns (handled: nat)
      modifies this`imeOpen, this`imeFailed, this`sessionSent, this`imeSent, this`pointerSent,
               this`scrollRemX, this`scrollRemY
      ensures handled <= |frames|
      ensures forall i :: 0 <= i < handled ==> !Raises(frames[i])
      ensures handled < |frames| ==> Raises(frames[handled])
      ensures Snap() == ForwardAll(old(Snap()), frames[..handled], tv)
      ensures (Snap(), handled) == Serve(old(Snap()), frames, tv, 0)
    {
      ghost var start := Snap();
      handled := 0;
      while handled < |frames|
        invariant handled <= |frames|
        invariant Serve(Snap(), frames, tv, handled) == Serve(start, frames, tv, 0)
      {
        var ok := HandleMessage(frames[handled], tv(handled));
        if !ok {
          break;
        }
        handled := handled + 1;
      }
      ServeStops(start, start, frames, tv, 0);
      assert handled == FirstRaise(frames, 0);
    }
  }

  /** What the bridge holds between client messages: sockets, scroll remainders and what was written. */
  datatype BridgeState = BridgeState(
    sessionOpen: bool, imeOpen: bool, imeFailed: bool, remX: real, remY: real,
    pointerSent: seq<string>, sessionSent: seq<Json>, imeSent: seq<Json>)

  /**
   * `_send_text` on a state: the IME socket (opened first if it may be
   * tried), else an insertText request on the session, else the pointer
   * socket. The text reaches the TV by exactly one route.
   */
  function TextForwarded(s: BridgeState, text: string, tv: TvReplies): (t: BridgeState)
    ensures t.sessionOpen == s.sessionOpen && t.remX == s.remX && t.remY == s.remY
    ensures s.pointerSent <= t.pointerSent && s.sessionSent <= t.sessionSent && s.imeSent <= t.imeSent
    ensures var viaIme := t.imeSent != s.imeSent;
            var viaRequest := !viaIme && s.sessionOpen && tv.insertAccepted;
            var viaPointer := t.pointerSent != s.pointerSent;
            && (viaIme ==> t.imeSent == s.imeSent + [ImeInsert(text)])
            && (viaPointer ==> t.pointerSent == s.pointerSent + [TextCommand(text)])
            && (viaRequest ==> |t.sessionSent| > 0 && t.sessionSent[|t.sessionSent| - 1] == InsertTextRequest(text))
            && (viaIme || viaRequest || viaPointer)
            && !(viaIme && viaPointer) && !(viaRequest && viaPointer)
            && t.imeOpen == viaIme
    ensures s.imeOpen && tv.imeSendOk ==> t.imeSent == s.imeSent + [ImeInsert(text)]
    ensures s.imeFailed && !s.imeOpen ==> t.imeFailed && t.imeSent == s.imeSent
  {
    var tries := !s.imeFailed && !s.imeOpen && s.sessionOpen;
    var viaIme := (s.imeOpen || (tries && tv.imeConnect == ImeSocket)) && tv.imeSendOk;
    var viaRequest := !viaIme && s.sessionOpen && tv.insertAccepted;
    s.(imeOpen := viaIme,
       imeFailed := s.imeFailed || (tries && tv.imeConnect == ImeUnavailable),
       imeSent := s.imeSent + (if viaIme then [ImeInsert(text)] else []),
       sessionSent := s.sessionSent + (if tries then [ImeSocketRequest] else [])
                      + (if !viaIme && s.sessionOpen then [InsertTextRequest(text)] else []),
       pointerSent := s.pointerSent + (if viaIme || viaRequest then [] else [TextCommand(text)]))
  }

  /**
   * `_send_scroll` on a state: the downscaled delta joins the remainders, the
   * rounded whole parts go out chunked, and what was not sent stays behind.
   */
  function ScrollForwarded(s: BridgeState, dx: real, dy: real): (t: BridgeState)
    ensures -0.5 <= t.remX <= 0.5 && -0.5 <= t.remY <= 0.5
    ensures ScrollUnits(s.remX, dx) as real + t.remX == s.remX + dx * ScrollScale
    ensures ScrollUnits(s.remY, dy) as real + t.remY == s.remY + dy * ScrollScale
    ensures var sx := ScrollUnits(s.remX, dx);
            var sy := ScrollUnits(s.remY, dy);
            t.pointerSent == s.pointerSent + (if sx == 0 && sy == 0 then [] else MotionCommands(Scroll, Chunks(sx, sy)))
    ensures t.sessionOpen == s.sessionOpen && t.imeOpen == s.imeOpen && t.imeFailed == s.imeFailed
    ensures t.sessionSent == s.sessionSent && t.imeSent == s.imeSent
  {
    s.(remX := ScrollRemainder(s.remX, dx), remY := ScrollRemainder(s.remY, dy),
       pointerSent := s.pointerSent + ScrollCommands(ScrollUnits(s.remX, dx), ScrollUnits(s.remY, dy)))
  }

  /** The whole scroll units on one axis once a delta joins its remainder: the accumulated amount, rounded half to even. */
  function ScrollUnits(rem: real, d: real): int {
    RoundHalfEven(rem + d * ScrollScale)
  }

  /** What stays behind on one axis: under half a unit, and with the units sent it makes up the accumulated amount. */
  function ScrollRemainder(rem: real, d: real): (r: real)
    ensures -0.5 <= r <= 0.5
    ensures ScrollUnits(rem, d) as real + r == rem + d * ScrollScale
  {
    rem + d * ScrollScale - ScrollUnits(rem, d) as real
  }

  /** The commands of one scroll: none while both whole parts are zero, otherwise one per chunk. */
  function ScrollCommands(sx: int, sy: int): (cmds: seq<string>)
    ensures sx == 0 && sy == 0 <==> cmds == []
  {
    if sx == 0 && sy == 0 then [] else MotionCommands(Scroll, Chunks(sx, sy))
  }

  /** `_send_key` on a state: a backspace is offered to the session as an IME delete first. */
  function KeyForwarded(s: BridgeState, key: string, tv: TvReplies): (t: BridgeState)
    ensures key != "backspace" ==> t.sessionSent == s.sessionSent
    ensures t.pointerSent == s.pointerSent + KeyCommands(key, s.sessionOpen && tv.deleteAccepted)
    ensures t.sessionOpen == s.sessionOpen && t.imeOpen == s.imeOpen && t.imeFailed == s.imeFailed
    ensures t.remX == s.remX && t.remY == s.remY && t.imeSent == s.imeSent
    ensures key == "backspace" && s.sessionOpen ==> t.sessionSent == s.sessionSent + [DeleteCharactersRequest(1)]
    ensures key == "backspace" && s.sessionOpen && tv.deleteAccepted ==> t.pointerSent == s.pointerSent
  {
    s.(sessionSent := s.sessionSent + (if key == "backspace" && s.sessionOpen then [DeleteCharactersRequest(1)] else []),
       pointerSent := s.pointerSent + KeyCommands(key, s.sessionOpen && tv.deleteAccepted))
  }

  /**
   * The effect of one classified client message on the bridge, given the
   * TV's answers: what each sender writes and which state it changes. Writes
   * are only ever appended, and the session socket's state is left alone.
   */
  function Forward(s: BridgeState, req: Request, tv: TvReplies): (t: BridgeState)
    ensures t.sessionOpen == s.sessionOpen
    ensures s.pointerSent <= t.pointerSent && s.sessionSent <= t.sessionSent && s.imeSent <= t.imeSent
    ensures req.Skip? || req.Broken? || req.NoCommand? ==> t == s
    ensures !req.ScrollReq? ==> t.remX == s.remX && t.remY == s.remY
    ensures req.ScrollReq? ==> -0.5 <= t.remX <= 0.5 && -0.5 <= t.remY <= 0.5
    ensures !req.TextReq? ==> t.imeOpen == s.imeOpen && t.imeFailed == s.imeFailed && t.imeSent == s.imeSent
    ensures !req.TextReq? && !req.KeyReq? ==> t.sessionSent == s.sessionSent
  {
    match req
    case MoveReq(dx, dy) =>
      s.(pointerSent := s.pointerSent + MotionCommands(Move, Chunks(RoundHalfEven(dx), RoundHalfEven(dy))))
    case ScrollReq(dx, dy) => ScrollForwarded(s, dx, dy)
    case ClickReq => s.(pointerSent := s.pointerSent + [ClickCommand])
    case DoubleClickReq => s.(pointerSent := s.pointerSent + [ClickCommand, ClickCommand])
    case TextReq(text) => TextForwarded(s, text, tv)
    case KeyReq(key) => KeyForwarded(s, key, tv)
    case VolumeReq(action) => s.(pointerSent := s.pointerSent + ButtonCommands(VolumeButton(action)))
    case _ => s
  }

  /** A client's messages forwarded in order from state s; `tv(i)` answers while message i is handled. */
  function ForwardAll(s: BridgeState, frames: seq<Frame>, tv: nat -> TvReplies): BridgeState
    decreases |frames|
  {
    if frames == [] then s
    else Forward(ForwardAll(s, frames[..|frames| - 1], tv), ClassifyFrame(frames[|frames| - 1]), tv(|frames| - 1))
  }

  /** Forwarding one more message of a client extends the fold by one step. */
  lemma ForwardAllStep(s: BridgeState, frames: seq<Frame>, i: nat, tv: nat -> TvReplies)
    requires i < |frames|
    ensures ForwardAll(s, frames[..i + 1], tv) == Forward(ForwardAll(s, frames[..i], tv), ClassifyFrame(frames[i]), tv(i))
  {
    assert frames[..i + 1][..i] == frames[..i];
  }

  /**
   * Over a whole client, the bridge only adds to what it wrote, keeps the
   * session as it was, and keeps each scroll remainder within half a unit.
   */
  lemma {:induction false} ForwardAllExtends(s: BridgeState, frames: seq<Frame>, tv: nat -> TvReplies)
    requires -0.5 <= s.remX <= 0.5 && -0.5 <= s.remY <= 0.5
    ensures var t := ForwardAll(s, frames, tv);
            && t.sessionOpen == s.sessionOpen
            && s.pointerSent <= t.pointerSent && s.sessionSent <= t.sessionSent && s.imeSent <= t.imeSent
            && -0.5 <= t.remX <= 0.5 && -0.5 <= t.remY <= 0.5
    decreases |frames|
  {
    if frames != [] {
      ForwardAllExtends(s, frames[..|frames| - 1], tv);
    }
  }

  /**
   * The state `handle_client` leaves and the number of messages it has handled
   * when it works through `frames` from index `i` on in state `s`: it stops at
   * the end of the frames or at the first message that raises.
   */
  function Serve(s: BridgeState, frames: seq<Frame>, tv: nat -> TvReplies, i: nat): (BridgeState, nat)
    requires i <= |frames|
    decreases |frames| - i
  {
    if i == |frames| || Raises(frames[i]) then (s, i)
    else Serve(Forward(s, ClassifyFrame(frames[i]), tv(i)), frames, tv, i + 1)
  }

  /** The index of the first message from `i` on that raises, or the number of frames if none does. */
  function FirstRaise(frames: seq<Frame>, i: nat): (n: nat)
    requires i <= |frames|
    ensures i <= n <= |frames|
    ensures forall k :: i <= k < n ==> !Raises(frames[k])
    ensures n < |frames| ==> Raises(frames[n])
    decreases |frames| - i
  {
    if i == |frames| || Raises(frames[i]) then i else FirstRaise(frames, i + 1)
  }

  /**
   * Serving stops at the first message that raises, or at the end, having
   * forwarded every message before that point in order.
   */
  lemma {:induction false} ServeStops(s0: BridgeState, s: BridgeState, frames: seq<Frame>, tv: nat -> TvReplies, i: nat)
    requires i <= |frames|
    requires s == ForwardAll(s0, frames[..i], tv)
    ensures Serve(s, frames, tv, i) == (ForwardAll(s0, frames[..FirstRaise(frames, i)], tv), FirstRaise(frames, i))
    decreases |frames| - i
  {
    if i < |frames| && !Raises(frames[i]) {
      var next := Forward(s, ClassifyFrame(frames[i]), tv(i));
      ForwardAllStep(s0, frames, i, tv);
      ServeStops(s0, next, frames, tv, i + 1);
    }
  }
}
