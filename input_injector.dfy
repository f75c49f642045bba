/**
 * The Windows receiver (`ws_touchpad.py`): touchpad messages become mouse
 * and keyboard events injected with `SendInput` / `keybd_event`. The events
 * handed to Windows are recorded, in order, in the injector's `events` field.
 */
module InputInjection {
  import opened Wrappers
  import opened Json
  import opened Rounding

  const MouseMove: int := 0x0001
  const MouseLeftDown: int := 0x0002
  const MouseLeftUp: int := 0x0004
  const MouseRightDown: int := 0x0008
  const MouseRightUp: int := 0x0010
  const MouseWheel: int := 0x0800
  const MouseHWheel: int := 0x1000
  // One wheel notch, WHEEL_DELTA, is 120. It is written as that literal below,
  // which keeps products with a tick count linear for the solver.
  const KeyUpFlag: int := 0x0002
  const VkControl: int := 0x11
  const DefaultScrollScale: real := 4.0

  /** One injected event: a MOUSEINPUT, or a `keybd_event` call. */
  datatype InputEvent =
    | Mouse(flags: int, dx: int, dy: int, data: int)
    | KeyEvent(vk: int, flags: int)

  /** A button press or release: a MOUSEINPUT with only its flags set. */
  function MouseButtonEvent(flags: int): InputEvent {
    Mouse(flags, 0, 0, 0)
  }

  /** Whether the left button is down after these events: the last left press or release decides. */
  predicate LeftHeld(events: seq<InputEvent>)
    decreases |events|
  {
    if events == [] then false
    else
      var e := events[|events| - 1];
      if e.Mouse? && e.flags == MouseLeftDown then true
      else if e.Mouse? && e.flags == MouseLeftUp then false
      else LeftHeld(events[..|events| - 1])
  }

  predicate TouchesLeft(e: InputEvent) {
    e.Mouse? && (e.flags == MouseLeftDown || e.flags == MouseLeftUp)
  }

  /** Events that neither press nor release the left button leave its state alone. */
  lemma {:induction false} LeftHeldUnaffected(events: seq<InputEvent>, more: seq<InputEvent>)
    requires forall i :: 0 <= i < |more| ==> !TouchesLeft(more[i])
    ensures LeftHeld(events + more) == LeftHeld(events)
    decreases |more|
  {
    if more != [] {
      var init := more[..|more| - 1];
      assert (events + more)[..|events + more| - 1] == events + init;
      LeftHeldUnaffected(events, init);
    } else {
      assert events + more == events;
    }
  }

  /** Sum of the horizontal moves among the events. */
  function MovedX(events: seq<InputEvent>): int
    decreases |events|
  {
    if events == [] then 0
    else
      var e := events[|events| - 1];
      MovedX(events[..|events| - 1]) + (if e.Mouse? && e.flags == MouseMove then e.dx else 0)
  }

  /**
   * The whole wheel ticks in an accumulated scroll amount, `int(acc / 120)`:
   * truncated toward zero, so the remainder is less than a tick and keeps
   * the sign of the amount.
   */
  function WheelSteps(acc: real): (n: int)
    ensures var rem := acc - (n * 120) as real;
            && -120.0 < rem < 120.0
            && (acc >= 0.0 ==> rem >= 0.0 && n >= 0)
            && (acc <= 0.0 ==> rem <= 0.0 && n <= 0)
  {
    Trunc(acc / 120.0)
  }

  /** A scroll delta times the scroll scale. */
  function Scaled(d: real, scale: real): real {
    d * scale
  }

  /** What is left of an accumulated scroll amount once its whole ticks are sent. */
  function WheelRemainder(acc: real): (rem: real)
    ensures (WheelSteps(acc) * 120) as real + rem == acc
    ensures -120.0 < rem < 120.0
  {
    acc - (WheelSteps(acc) * 120) as real
  }

  /** The wheel events for one scroll: vertical first, each only when non-zero. */
  function WheelEvents(stepsX: int, stepsY: int): (es: seq<InputEvent>)
    ensures |es| == (if stepsX != 0 then 1 else 0) + (if stepsY != 0 then 1 else 0)
    ensures stepsY != 0 ==> es[0] == Mouse(MouseWheel, 0, 0, stepsY * 120)
    ensures stepsX != 0 ==> es[|es| - 1] == Mouse(MouseHWheel, 0, 0, stepsX * 120)
    ensures forall i :: 0 <= i < |es| ==> !TouchesLeft(es[i])
    ensures stepsX == 0 && stepsY == 0 <==> es == []
  {
    (if stepsY != 0 then [Mouse(MouseWheel, 0, 0, stepsY * 120)] else [])
    + (if stepsX != 0 then [Mouse(MouseHWheel, 0, 0, stepsX * 120)] else [])
  }

  class InputInjector {
    const scrollScale: real
    var remX: real
    var remY: real
    var events: seq<InputEvent>

    constructor (scrollScale: real)
      ensures this.scrollScale == scrollScale
      ensures remX == 0.0 && remY == 0.0 && events == []
    {
      this.scrollScale := scrollScale;
      remX, remY := 0.0, 0.0;
      events := [];
    }

    /** The injector's state as a value. */
    function Snap(): Snapshot
      reads this
    {
      Snapshot(remX, remY, events)
    }

    method Inject(e: InputEvent)
      modifies this`events
      ensures events == old(events) + [e]
    {
      events := events + [e];
    }

    /** `move`: one relative move by the rounded deltas; the left button keeps its state. */
    method Move(dx: real, dy: real)
      modifies this`events
      ensures Snap() == Handle(scrollScale, old(Snap()), MoveReq(dx, dy))
      ensures events == old(events) + [Mouse(MouseMove, RoundHalfEven(dx), RoundHalfEven(dy), 0)]
      ensures LeftHeld(events) == LeftHeld(old(events))
    {
      Inject(Mouse(MouseMove, RoundHalfEven(dx), RoundHalfEven(dy), 0));
    }

    /**
     * `scroll`: the scaled deltas accumulate; whole ticks are sent as wheel
     * data and the remainder, under one tick and of the accumulated sign, is
     * kept. Nothing scrolled is lost: ticks sent plus remainder equal the
     * accumulated amount.
     */
    method Scroll(dx: real, dy: real)
      modifies this`remX, this`remY, this`events
      ensures Snap() == Handle(scrollScale, old(Snap()), ScrollReq(dx, dy))
      ensures var sx := WheelSteps(old(remX) + Scaled(dx, scrollScale));
              var sy := WheelSteps(old(remY) + Scaled(dy, scrollScale));
              && (sx * 120) as real + remX == old(remX) + Scaled(dx, scrollScale)
              && (sy * 120) as real + remY == old(remY) + Scaled(dy, scrollScale)
              && events == old(events) + WheelEvents(sx, sy)
      ensures -120.0 < remX < 120.0
      ensures -120.0 < remY < 120.0
      ensures remX == WheelRemainder(old(remX) + Scaled(dx, scrollScale)) && remY == WheelRemainder(old(remY) + Scaled(dy, scrollScale))
      ensures LeftHeld(events) == LeftHeld(old(events))
    {
      ghost var start := Snap();
      var stepsX, stepsY := Accumulate(dx, dy);
      SendWheel(stepsX, stepsY);
      assert Emitted(scrollScale, start, ScrollReq(dx, dy)) == WheelEvents(stepsX, stepsY);
      LeftHeldUnaffected(start.events, WheelEvents(stepsX, stepsY));
    }

    /** The remainder half of `scroll`: add the scaled deltas and take the whole ticks out. */
    method Accumulate(dx: real, dy: real) returns (stepsX: int, stepsY: int)
      modifies this`remX, this`remY
      ensures stepsX == WheelSteps(old(remX) + Scaled(dx, scrollScale))
      ensures stepsY == WheelSteps(old(remY) + Scaled(dy, scrollScale))
      ensures remX == WheelRemainder(old(remX) + Scaled(dx, scrollScale))
      ensures remY == WheelRemainder(old(remY) + Scaled(dy, scrollScale))
    {
      var accX := remX + Scaled(dx, scrollScale);
      var accY := remY + Scaled(dy, scrollScale);
      stepsX := WheelSteps(accX);
      stepsY := WheelSteps(accY);
      remX := accX - (stepsX * 120) as real;
      remY := accY - (stepsY * 120) as real;
    }

    /** The wheel part of `scroll`: a vertical tick count, then a horizontal one, each sent only when non-zero. */
    method SendWheel(stepsX: int, stepsY: int)
      modifies this`events
      ensures events == old(events) + WheelEvents(stepsX, stepsY)
    {
      if stepsY != 0 {
        Inject(Mouse(MouseWheel, 0, 0, stepsY * 120));
      }
      if stepsX != 0 {
        Inject(Mouse(MouseHWheel, 0, 0, stepsX * 120));
      }
    }

    /** `click`: press and release, so the left button ends up released. */
    method Click()
      modifies this`events
      ensures Snap() == Handle(scrollScale, old(Snap()), ClickReq)
      ensures events == old(events) + [MouseButtonEvent(MouseLeftDown), MouseButtonEvent(MouseLeftUp)]
      ensures !LeftHeld(events)
    {
      Inject(MouseButtonEvent(MouseLeftDown));
      Inject(MouseButtonEvent(MouseLeftUp));
    }

    /** `right_click`: a right press and release; the left button keeps its state. */
    method RightClick()
      modifies this`events
      ensures Snap() == Handle(scrollScale, old(Snap()), RightClickReq)
      ensures events == old(events) + [MouseButtonEvent(MouseRightDown), MouseButtonEvent(MouseRightUp)]
      ensures LeftHeld(events) == LeftHeld(old(events))
    {
      ghost var before := events;
      Inject(MouseButtonEvent(MouseRightDown));
      Inject(MouseButtonEvent(MouseRightUp));
      LeftHeldUnaffected(before, [MouseButtonEvent(MouseRightDown), MouseButtonEvent(MouseRightUp)]);
    }

    method LeftDown()
      modifies this`events
      ensures Snap() == Handle(scrollScale, old(Snap()), DownReq)
      ensures events == old(events) + [MouseButtonEvent(MouseLeftDown)]
      ensures LeftHeld(events)
    {
      Inject(MouseButtonEvent(MouseLeftDown));
    }

    method LeftUp()
      modifies this`events
      ensures Snap() == Handle(scrollScale, old(Snap()), UpReq)
      ensures events == old(events) + [MouseButtonEvent(MouseLeftUp)]
      ensures !LeftHeld(events)
    {
      Inject(MouseButtonEvent(MouseLeftUp));
    }

    /** `double_click`: two clicks (the 30 ms pause between them is not modelled). */
    method DoubleClick()
      modifies this`events
      ensures Snap() == Handle(scrollScale, old(Snap()), DoubleClickReq)
      ensures events == old(events) + [MouseButtonEvent(MouseLeftDown), MouseButtonEvent(MouseLeftUp),
                                       MouseButtonEvent(MouseLeftDown), MouseButtonEvent(MouseLeftUp)]
      ensures !LeftHeld(events)
    {
      Click();
      Click();
    }

    /**
     * `wake`: a two-pixel wiggle that returns the cursor to where it was, and
     * a Control tap that leaves the key released; the left button is untouched.
     */
    method Wake()
      modifies this`events
      ensures Snap() == Handle(scrollScale, old(Snap()), WakeReq)
      ensures events == old(events) + WakeEvents
      ensures MovedX(events) == MovedX(old(events))
      ensures LeftHeld(events) == LeftHeld(old(events))
    {
      ghost var before := events;
      Inject(Mouse(MouseMove, 2, 0, 0));
      Inject(Mouse(MouseMove, -2, 0, 0));
      Inject(KeyEvent(VkControl, 0));
      Inject(KeyEvent(VkControl, KeyUpFlag));
      assert events == before + WakeEvents;
      WiggleReturns(before);
      LeftHeldUnaffected(before, WakeEvents);
    }

    /**
     * One iteration of `handle_client`; false when the message raises. The new
     * state is Handle of the old one: exactly the events of the request's handler.
     */
    method HandleMessage(frame: Frame) returns (ok: bool)
      modifies this`remX, this`remY, this`events
      ensures ok <==> Classify(frame) != Broken
      ensures Snap() == Handle(scrollScale, old(Snap()), Classify(frame))
      ensures Classify(frame) in {ClickReq, DoubleClickReq, UpReq} ==> !LeftHeld(events)
      ensures Classify(frame) == DownReq ==> LeftHeld(events)
      ensures Classify(frame) in {RightClickReq, WakeReq} || Classify(frame).MoveReq? || Classify(frame).ScrollReq? ==>
                LeftHeld(events) == LeftHeld(old(events))
    {
      var req := Classify(frame);
      match req {
        case Skip =>
          ok := true;
        case Broken =>
          ok := false;
        case MoveReq(dx, dy) =>
          Move(dx, dy);
          ok := true;
        case ScrollReq(dx, dy) =>
          Scroll(dx, dy);
          ok := true;
        case ClickReq =>
          Click();
          ok := true;
        case DoubleClickReq =>
          DoubleClick();
          ok := true;
        case RightClickReq =>
          RightClick();
          ok := true;
        case DownReq =>
          LeftDown();
          ok := true;
        case UpReq =>
          LeftUp();
          ok := true;
        case WakeReq =>
          Wake();
          ok := true;
        case NoCommand =>
          ok := true;
      }
    }

    /**
     * `handle_client`: messages are handled in order until one raises, which
     * ends the handler for that client.
     */
    method HandleClient(frames: seq<Frame>) returns (handled: nat)
      modifies this`remX, this`remY, this`events
      ensures handled <= |frames|
      ensures forall i :: 0 <= i < handled ==> !Raises(frames[i])
      ensures handled < |frames| ==> Raises(frames[handled])
      ensures Snap() == HandleAll(scrollScale, old(Snap()), frames[..handled])
      ensures (Snap(), handled) == Serve(scrollScale, old(Snap()), frames, 0)
    {
      ghost var start := Snap();
      handled := 0;
      while handled < |frames|
        invariant handled <= |frames|
        invariant Serve(scrollScale, Snap(), frames, handled) == Serve(scrollScale, start, frames, 0)
      {
        var ok := HandleMessage(frames[handled]);
        if !ok {
          break;
        }
        handled := handled + 1;
      }
      ServeStops(scrollScale, start, start, frames, 0);
      assert handled == FirstRaise(frames, 0);
    }
  }

  /** `wake`'s events: a move right and back by two pixels, then a Control press and release. */
  const WakeEvents: seq<InputEvent> :=
    [Mouse(MouseMove, 2, 0, 0), Mouse(MouseMove, -2, 0, 0), KeyEvent(VkControl, 0), KeyEvent(VkControl, KeyUpFlag)]

  /** The wake wiggle moves the cursor by +2 and then -2. */
  lemma WiggleReturns(events: seq<InputEvent>)
    ensures MovedX(events + WakeEvents) == MovedX(events)
  {
    var e1 := events + [Mouse(MouseMove, 2, 0, 0)];
    var e2 := e1 + [Mouse(MouseMove, -2, 0, 0)];
    var e3 := e2 + [KeyEvent(VkControl, 0)];
    var e4 := e3 + [KeyEvent(VkControl, KeyUpFlag)];
    assert e1[..|e1| - 1] == events;
    assert e2[..|e2| - 1] == e1;
    assert e3[..|e3| - 1] == e2;
    assert e4[..|e4| - 1] == e3;
    assert MovedX(e1) == MovedX(events) + 2;
    assert MovedX(e2) == MovedX(e1) - 2;
    assert MovedX(e4) == MovedX(e3) == MovedX(e2);
    assert e4 == events + WakeEvents;
  }

  /** A client message, as `handle_client`'s if/elif chain reads it. */
  datatype Request =
    | Skip                 // not JSON: skipped
    | Broken               // raises: not an object, or a dx/dy that float() rejects
    | MoveReq(dx: real, dy: real)
    | ScrollReq(dx: real, dy: real)
    | ClickReq
    | DoubleClickReq
    | RightClickReq
    | DownReq
    | UpReq
    | WakeReq
    | NoCommand            // any other message: ignored

  /** The values of `t` the handler acts on. */
  const InjectorTypes: set<Option<Json>> :=
    {Some(JStr("move")), Some(JStr("scroll")), Some(JStr("click")), Some(JStr("double_click")),
     Some(JStr("right_click")), Some(JStr("down")), Some(JStr("up")), Some(JStr("wake"))}

  /**
   * The message raises inside the handler: it is JSON but not an object, or a
   * move or scroll whose dx or dy `float()` rejects.
   */
  predicate Raises(frame: Frame) {
    frame.Decoded? &&
    (!frame.data.JObj? ||
     ((HasType(frame, "move") || HasType(frame, "scroll")) &&
      (FloatField(frame.data.fields, "dx").None? || FloatField(frame.data.fields, "dy").None?)))
  }

  /** `handle_client`'s if/elif chain on one frame. */
  function Classify(frame: Frame): (r: Request)
    ensures r == Skip <==> frame.Undecodable?
    ensures r == Broken <==> Raises(frame)
    ensures r.MoveReq? <==>
              HasType(frame, "move") && FloatField(frame.data.fields, "dx").Some? && FloatField(frame.data.fields, "dy").Some?
    ensures r.ScrollReq? <==>
              HasType(frame, "scroll") && FloatField(frame.data.fields, "dx").Some? && FloatField(frame.data.fields, "dy").Some?
    ensures (r.MoveReq? || r.ScrollReq?) ==>
              Some(r.dx) == FloatField(frame.data.fields, "dx") && Some(r.dy) == FloatField(frame.data.fields, "dy")
    ensures r == ClickReq <==> HasType(frame, "click")
    ensures r == DoubleClickReq <==> HasType(frame, "double_click")
    ensures r == RightClickReq <==> HasType(frame, "right_click")
    ensures r == DownReq <==> HasType(frame, "down")
    ensures r == UpReq <==> HasType(frame, "up")
    ensures r == WakeReq <==> HasType(frame, "wake")
    ensures r == NoCommand <==> IsObject(frame) && MessageType(frame) !in InjectorTypes
    ensures (frame.Decoded? && frame.data.JObj? && Get(frame.data.fields, "t") == Some(JStr("move"))
             && "dx" !in frame.data.fields && "dy" !in frame.data.fields) ==> r == MoveReq(0.0, 0.0)
  {
    match frame
    case Undecodable => Skip
    case Decoded(data) =>
      if !data.JObj? then Broken
      else
        var f := data.fields;
        var t := Get(f, "t");
        if t == Some(JStr("move")) || t == Some(JStr("scroll")) then
          match (FloatField(f, "dx"), FloatField(f, "dy"))
          case (Some(dx), Some(dy)) => if t == Some(JStr("move")) then MoveReq(dx, dy) else ScrollReq(dx, dy)
          case _ => Broken
        else if t == Some(JStr("click")) then ClickReq
        else if t == Some(JStr("double_click")) then DoubleClickReq
        else if t == Some(JStr("right_click")) then RightClickReq
        else if t == Some(JStr("down")) then DownReq
        else if t == Some(JStr("up")) then UpReq
        else if t == Some(JStr("wake")) then WakeReq
        else NoCommand
  }

  /** What the injector holds between messages: the scroll remainders and the events sent so far. */
  datatype Snapshot = Snapshot(remX: real, remY: real, events: seq<InputEvent>)

  /** The events one classified message injects, given the state it finds. */
  function Emitted(scale: real, s: Snapshot, req: Request): (es: seq<InputEvent>)
    ensures req.Skip? || req.Broken? || req.NoCommand? ==> es == []
    ensures req.MoveReq? ==> es == [Mouse(MouseMove, RoundHalfEven(req.dx), RoundHalfEven(req.dy), 0)]
    ensures req.ScrollReq? ==> es == WheelEvents(WheelSteps(s.remX + Scaled(req.dx, scale)), WheelSteps(s.remY + Scaled(req.dy, scale)))
    ensures req == ClickReq ==> es == [MouseButtonEvent(MouseLeftDown), MouseButtonEvent(MouseLeftUp)]
    ensures req == DoubleClickReq ==>
              es == [MouseButtonEvent(MouseLeftDown), MouseButtonEvent(MouseLeftUp),
                     MouseButtonEvent(MouseLeftDown), MouseButtonEvent(MouseLeftUp)]
    ensures req == RightClickReq ==> es == [MouseButtonEvent(MouseRightDown), MouseButtonEvent(MouseRightUp)]
    ensures req == DownReq ==> es == [MouseButtonEvent(MouseLeftDown)]
    ensures req == UpReq ==> es == [MouseButtonEvent(MouseLeftUp)]
    ensures req == WakeReq ==> es == WakeEvents
  {
    match req
    case MoveReq(dx, dy) => [Mouse(MouseMove, RoundHalfEven(dx), RoundHalfEven(dy), 0)]
    case ScrollReq(_, _) => WheelEvents(WheelSteps(s.remX + Scaled(req.dx, scale)), WheelSteps(s.remY + Scaled(req.dy, scale)))
    case ClickReq => [MouseButtonEvent(MouseLeftDown), MouseButtonEvent(MouseLeftUp)]
    case DoubleClickReq =>
      [MouseButtonEvent(MouseLeftDown), MouseButtonEvent(MouseLeftUp),
       MouseButtonEvent(MouseLeftDown), MouseButtonEvent(MouseLeftUp)]
    case RightClickReq => [MouseButtonEvent(MouseRightDown), MouseButtonEvent(MouseRightUp)]
    case DownReq => [MouseButtonEvent(MouseLeftDown)]
    case UpReq => [MouseButtonEvent(MouseLeftUp)]
    case WakeReq => WakeEvents
    case _ => []
  }

  /**
   * The effect of one classified message on the injector's state: its events
   * are appended; the remainders change only on a scroll, which keeps the
   * amount scrolled and leaves less than a tick behind.
   */
  function Handle(scale: real, s: Snapshot, req: Request): (t: Snapshot)
    ensures t.events == s.events + Emitted(scale, s, req)
    ensures !req.ScrollReq? ==> t.remX == s.remX && t.remY == s.remY
    ensures req.ScrollReq? ==>
              && -120.0 < t.remX < 120.0
              && -120.0 < t.remY < 120.0
              && (WheelSteps(s.remX + Scaled(req.dx, scale)) * 120) as real + t.remX == s.remX + Scaled(req.dx, scale)
              && (WheelSteps(s.remY + Scaled(req.dy, scale)) * 120) as real + t.remY == s.remY + Scaled(req.dy, scale)
  {
    if req.ScrollReq? then
      Snapshot(WheelRemainder(s.remX + Scaled(req.dx, scale)), WheelRemainder(s.remY + Scaled(req.dy, scale)),
               s.events + Emitted(scale, s, req))
    else
      s.(events := s.events + Emitted(scale, s, req))
  }

  /** A client's messages handled in order, starting from state s. */
  function HandleAll(scale: real, s: Snapshot, frames: seq<Frame>): Snapshot
    decreases |frames|
  {
    if frames == [] then s
    else Handle(scale, HandleAll(scale, s, frames[..|frames| - 1]), Classify(frames[|frames| - 1]))
  }

  /** Handling one more message of a client extends the fold by one step. */
  lemma HandleAllStep(scale: real, s: Snapshot, frames: seq<Frame>, i: nat)
    requires i < |frames|
    ensures HandleAll(scale, s, frames[..i + 1]) == Handle(scale, HandleAll(scale, s, frames[..i]), Classify(frames[i]))
  {
    assert frames[..i + 1][..i] == frames[..i];
  }

  /**
   * The state `handle_client` leaves and the number of messages it has handled
   * when it works through `frames` from index `i` on in state `s`: it stops at
   * the end of the frames or at the first message that raises.
   */
  function Serve(scale: real, s: Snapshot, frames: seq<Frame>, i: nat): (Snapshot, nat)
    requires i <= |frames|
    decreases |frames| - i
  {
    if i == |frames| || Raises(frames[i]) then (s, i)
    else Serve(scale, Handle(scale, s, Classify(frames[i])), frames, i + 1)
  }

  /** The index of the first message from `i` on that raises, or the number of frames if none does. */
  function FirstRaise(frames: seq<Frame>, i: nat): (n: nat)
    requires i <= |frames|
    ensures i <= n <= |frames|
    ensures forall k :: i <= k < n ==> !Raises(frames[k])
    ensures n < |frames| ==> Raises(frames[n])
    decreases |frames| - i
  {
    if i == |frames| || Raises(frames[i]) then i else FirstRaise(frames, i + 1)
  }

  /**
   * Serving stops at the first message that raises, or at the end, having
   * handled every message before that point in order.
   */
  lemma {:induction false} ServeStops(scale: real, s0: Snapshot, s: Snapshot, frames: seq<Frame>, i: nat)
    requires i <= |frames|
    requires s == HandleAll(scale, s0, frames[..i])
    ensures Serve(scale, s, frames, i) == (HandleAll(scale, s0, frames[..FirstRaise(frames, i)]), FirstRaise(frames, i))
    decreases |frames| - i
  {
    if i < |frames| && !Raises(frames[i]) {
      var next := Handle(scale, s, Classify(frames[i]));
      HandleAllStep(scale, s0, frames, i);
      ServeStops(scale, s0, next, frames, i + 1);
    }
  }

  /** A client's messages only add to the events already sent, and keep the remainders under a tick. */
  lemma {:induction false} HandleAllExtends(scale: real, s: Snapshot, frames: seq<Frame>)
    requires -120.0 < s.remX < 120.0 && -120.0 < s.remY < 120.0
    ensures var t := HandleAll(scale, s, frames);
            && |s.events| <= |t.events| && t.events[..|s.events|] == s.events
            && -120.0 < t.remX < 120.0
            && -120.0 < t.remY < 120.0
    decreases |frames|
  {
    if frames != [] {
      var mid := HandleAll(scale, s, frames[..|frames| - 1]);
      HandleAllExtends(scale, s, frames[..|frames| - 1]);
      var t := Handle(scale, mid, Classify(frames[|frames| - 1]));
      assert t.events[..|mid.events|] == mid.events;
      assert t.events[..|s.events|] == t.events[..|mid.events|][..|s.events|];
    }
  }

  /** After a message, the left button is held exactly as the handler's events leave it. */
  lemma HandleLeftButton(scale: real, s: Snapshot, req: Request)
    ensures req in {ClickReq, DoubleClickReq, UpReq} ==> !LeftHeld(Handle(scale, s, req).events)
    ensures req == DownReq ==> LeftHeld(Handle(scale, s, req).events)
    ensures !(req in {ClickReq, DoubleClickReq, UpReq, DownReq}) ==>
              LeftHeld(Handle(scale, s, req).events) == LeftHeld(s.events)
  {
    match req
    case MoveReq(dx, dy) => LeftHeldUnaffected(s.events, [Mouse(MouseMove, RoundHalfEven(dx), RoundHalfEven(dy), 0)]);
    case ScrollReq(_, _) => LeftHeldUnaffected(s.events, Emitted(scale, s, req));
    case RightClickReq => LeftHeldUnaffected(s.events, [MouseButtonEvent(MouseRightDown), MouseButtonEvent(MouseRightUp)]);
    case WakeReq => LeftHeldUnaffected(s.events, WakeEvents);
    case Skip => assert Handle(scale, s, req).events == s.events;
    case Broken => assert Handle(scale, s, req).events == s.events;
    case NoCommand => assert Handle(scale, s, req).events == s.events;
    case _ =>
  }
}
