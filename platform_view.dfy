/** The Fuchsia PlatformView's handling of Scenic events: pointer input
    becomes Flutter pointer data (with a MOVE from a pointer that is not
    down reported as a hover), metrics and view-size events update the
    viewport metrics only when a valid, different value arrives, child-view
    events become platform-views messages when the view holder is known and
    are deferred otherwise, and a platform message on a channel without a
    handler is logged once per channel. */
module FuchsiaPlatformViews {
  import opened Wrappers

  /** fuchsia::ui::input::PointerEventPhase; `UnknownPhase` stands for any
      value outside the enumeration. */
  datatype Phase = AddPhase | HoverPhase | DownPhase | MovePhase | UpPhase | RemovePhase | CancelPhase
                 | UnknownPhase(raw: int)

  /** flutter::PointerData::Change. */
  datatype Change = Cancel | Add | Remove | Hover | Down | Move | Up

  /** fuchsia::ui::input::PointerEventType. */
  datatype PointerType = TouchPointer | StylusPointer | InvertedStylusPointer | MousePointer

  /** flutter::PointerData::DeviceKind. */
  datatype DeviceKind = Mouse | Touch | Stylus | InvertedStylus

  /** GetChangeFromPointerEventPhase: each phase to its change; a phase
      outside the enumeration cancels. */
  function ChangeFromPhase(p: Phase): Change {
    match p
    case AddPhase => Add
    case HoverPhase => Hover
    case DownPhase => Down
    case MovePhase => Move
    case UpPhase => Up
    case RemovePhase => Remove
    case CancelPhase => Cancel
    case UnknownPhase(_) => Cancel
  }

  /** The phase that reports a change. */
  function PhaseOf(c: Change): Phase {
    match c
    case Add => AddPhase
    case Hover => HoverPhase
    case Down => DownPhase
    case Move => MovePhase
    case Up => UpPhase
    case Remove => RemovePhase
    case Cancel => CancelPhase
  }

  /** GetKindFromPointerType: touch and mouse keep their kind; every other
      type is treated as touch. */
  function KindFromType(t: PointerType): DeviceKind {
    match t
    case MousePointer => Mouse
    case _ => Touch
  }

  /** PointerTraceHACK: the bits of the first float above the bits of the
      second. */
  function PointerTrace(major: bv32, minor: bv32): bv64 {
    ((major as bv64) << 32) | (minor as bv64)
  }

  /** fuchsia::ui::input::PointerEvent, as far as the view reads it; the
      radii are the bit patterns of the floats. */
  datatype PointerEvent = PointerEvent(
    eventTime: nat, phase: Phase, pointerType: PointerType, pointerId: nat,
    x: real, y: real, buttons: nat, radiusMajor: bv32, radiusMinor: bv32)

  datatype PointerData = PointerData(
    timeStamp: nat, change: Change, kind: DeviceKind, device: nat,
    physicalX: real, physicalY: real, buttons: nat)

  /** The change reported for a pointer: a move of a pointer that is not
      down is a hover. */
  function ReportedChange(c: Change, device: nat, down: set<nat>): Change {
    if c == Move && device !in down then Hover else c
  }

  /** The pointer data dispatched for an event, scaled to physical pixels
      by the view's pixel ratio (0 while none is known). */
  function PointerDataFor(e: PointerEvent, pixelRatio: Option<real>, down: set<nat>): PointerData {
    var ratio := pixelRatio.GetOr(0.0);
    PointerData(e.eventTime / 1000, ReportedChange(ChangeFromPhase(e.phase), e.pointerId, down),
                KindFromType(e.pointerType), e.pointerId, e.x * ratio, e.y * ratio, e.buttons)
  }

  /** The pointers down after a change: a down adds the device, an up or a
      cancel removes it. */
  function DownAfter(down: set<nat>, c: Change, device: nat): set<nat> {
    match c
    case Down => down + {device}
    case Up => down - {device}
    case Cancel => down - {device}
    case _ => down
  }

  datatype LogicalSize = LogicalSize(width: real, height: real)

  /** The x and y extents of a fuchsia::ui::gfx::BoundingBox. */
  datatype BoundingBox = BoundingBox(minX: real, minY: real, maxX: real, maxY: real)

  function Max0(x: real): real {
    if x < 0.0 then 0.0 else x
  }

  /** The logical size of a view's bounding box, clamped at 0. */
  function SizeOf(box: BoundingBox): LogicalSize {
    LogicalSize(Max0(box.maxX - box.minX), Max0(box.maxY - box.minY))
  }

  /** Whether a metrics event's pixel ratio is taken: it is positive and
      differs from the known one. */
  predicate TakesPixelRatio(current: Option<real>, ratio: real) {
    ratio > 0.0 && current != Some(ratio)
  }

  /** Whether a view-properties event's size is taken: both sides are
      positive and it differs from the known size. */
  predicate TakesSize(current: Option<LogicalSize>, size: LogicalSize) {
    size.width > 0.0 && size.height > 0.0 && current != Some(size)
  }

  /** The child-view events of fuchsia::ui::gfx::Event. */
  datatype ViewEvent =
    | ViewConnected(viewHolderId: nat)
    | ViewDisconnected(viewHolderId: nat)
    | ViewStateChanged(viewHolderId: nat, isRendering: bool)

  /** The Scenic events the view handles; everything it ignores is
      `OtherEvent`. */
  datatype ScenicEvent =
    | MetricsEvent(scaleX: real)
    | ViewPropertiesChangedEvent(box: BoundingBox)
    | ChildViewEvent(event: ViewEvent)
    | PointerInput(pointer: PointerEvent)
    | KeyboardInput
    | OtherEvent

  /** The flutter/platform_views messages sent for child views, carrying
      the platform view id. */
  datatype ChildViewMessage =
    | Connected(viewId: int)
    | Disconnected(viewId: int)
    | StateChanged(viewId: int, isRendering: bool)

  function MessageFor(e: ViewEvent, viewId: int): ChildViewMessage {
    match e
    case ViewConnected(_) => Connected(viewId)
    case ViewDisconnected(_) => Disconnected(viewId)
    case ViewStateChanged(_, rendering) => StateChanged(viewId, rendering)
  }

  /** The viewport metrics sent to the engine; every padding and inset is
      zero. */
  datatype ViewportMetrics = ViewportMetrics(devicePixelRatio: real, physicalWidth: real, physicalHeight: real)

  /** What Scenic events change in the view. */
  datatype State = State(
    down: set<nat>, pixelRatio: Option<real>, logicalSize: Option<LogicalSize>,
    packets: seq<PointerData>, messages: seq<ChildViewMessage>)

  /** The effect of one event: the new state, whether the metrics changed,
      and the child-view event deferred (if any). */
  datatype Effect = Effect(state: State, metricsChanged: bool, deferred: seq<ViewEvent>)

  function EventEffect(s: State, childViewIds: map<nat, int>, e: ScenicEvent): Effect {
    match e
    case MetricsEvent(ratio) =>
      if TakesPixelRatio(s.pixelRatio, ratio) then Effect(s.(pixelRatio := Some(ratio)), true, [])
      else Effect(s, false, [])
    case ViewPropertiesChangedEvent(box) =>
      var size := SizeOf(box);
      if TakesSize(s.logicalSize, size) then Effect(s.(logicalSize := Some(size)), true, [])
      else Effect(s, false, [])
    case ChildViewEvent(v) =>
      if v.viewHolderId in childViewIds
      then Effect(s.(messages := s.messages + [MessageFor(v, childViewIds[v.viewHolderId])]), false, [])
      else Effect(s, false, [v])
    case PointerInput(p) =>
      Effect(s.(down := DownAfter(s.down, ChangeFromPhase(p.phase), p.pointerId),
                packets := s.packets + [PointerDataFor(p, s.pixelRatio, s.down)]), false, [])
    case KeyboardInput => Effect(s, false, [])
    case OtherEvent => Effect(s, false, [])
  }

  /** The effect of a batch of events, in order: the metrics changed if any
      event changed them, and the deferred events are collected in order. */
  function BatchEffect(s: State, childViewIds: map<nat, int>, events: seq<ScenicEvent>): Effect {
    if events == [] then Effect(s, false, [])
    else
      var before := BatchEffect(s, childViewIds, events[..|events| - 1]);
      var last := EventEffect(before.state, childViewIds, events[|events| - 1]);
      Effect(last.state, before.metricsChanged || last.metricsChanged, before.deferred + last.deferred)
  }

  /** The metrics sent after a batch: only when both the pixel ratio and
      the size are known and something changed, with the physical size the
      logical size times the ratio. */
  function MetricsToSend(s: State, changed: bool): seq<ViewportMetrics> {
    if s.pixelRatio.Some? && s.logicalSize.Some? && changed then [MetricsFor(s.pixelRatio.value, s.logicalSize.value)]
    else []
  }

  /** The viewport metrics for a pixel ratio and a logical size: the
      physical size is the logical size times the ratio. */
  function MetricsFor(pixelRatio: real, size: LogicalSize): ViewportMetrics {
    ViewportMetrics(pixelRatio, size.width * pixelRatio, size.height * pixelRatio)
  }

  /** The platform channels with a handler. */
  const FlutterPlatformChannel := "flutter/platform"
  const TextInputChannel := "flutter/textinput"
  const AccessibilityChannel := "flutter/accessibility"
  const FlutterPlatformViewsChannel := "flutter/platform_views"

  class PlatformView {
    var downPointers: set<nat>
    var viewPixelRatio: Option<real>
    var viewLogicalSize: Option<LogicalSize>
    /** The pointer data packets dispatched to the engine. */
    var pointerPackets: seq<PointerData>
    /** The flutter/platform_views messages dispatched for child views. */
    var childViewMessages: seq<ChildViewMessage>
    var metricsSent: seq<ViewportMetrics>
    /** child_view_ids_: Scenic view holder id to platform view id. */
    var childViewIds: map<nat, int>
    const handlerChannels: set<string>
    var unregisteredChannels: set<string>
    /** Messages passed to a channel's handler, by channel. */
    var handledMessages: seq<string>
    /** Messages answered with the default empty response, by channel. */
    var defaultResponses: seq<string>
    /** The channels logged as having no handler, in order. */
    var unregisteredLog: seq<string>

    function Snapshot(): State
      reads this
    {
      State(downPointers, viewPixelRatio, viewLogicalSize, pointerPackets, childViewMessages)
    }

    /** A known pixel ratio and a known size are always positive. */
    predicate Valid()
      reads this
    {
      (viewPixelRatio.Some? ==> viewPixelRatio.value > 0.0) &&
      (viewLogicalSize.Some? ==> viewLogicalSize.value.width > 0.0 && viewLogicalSize.value.height > 0.0) &&
      (forall c | c in unregisteredChannels :: c !in handlerChannels)
    }

    /** A view with no metrics yet, no pointer down, and handlers on the
        platform, text input, accessibility and platform-views channels. */
    constructor ()
      ensures Valid()
      ensures Snapshot() == State({}, None, None, [], [])
      ensures handlerChannels == {FlutterPlatformChannel, TextInputChannel, AccessibilityChannel, FlutterPlatformViewsChannel}
      ensures childViewIds == map[] && unregisteredChannels == {} && metricsSent == []
      ensures handledMessages == [] && defaultResponses == [] && unregisteredLog == []
    {
      downPointers := {};
      viewPixelRatio := None;
      viewLogicalSize := None;
      pointerPackets := [];
      childViewMessages := [];
      metricsSent := [];
      childViewIds := map[];
      handlerChannels := {FlutterPlatformChannel, TextInputChannel, AccessibilityChannel, FlutterPlatformViewsChannel};
      unregisteredChannels := {};
      handledMessages := [];
      defaultResponses := [];
      unregisteredLog := [];
    }

    /** OnHandlePointerEvent: dispatches the pointer's data and tracks which
        pointers are down.  Returns the trace flow id made of the radii. */
    method OnHandlePointerEvent(pointer: PointerEvent) returns (handled: bool, traceId: bv64)
      modifies this
      ensures handled && traceId == PointerTrace(pointer.radiusMajor, pointer.radiusMinor)
      ensures downPointers == DownAfter(old(downPointers), ChangeFromPhase(pointer.phase), pointer.pointerId)
      ensures pointerPackets == old(pointerPackets) + [PointerDataFor(pointer, viewPixelRatio, old(downPointers))]
      ensures viewPixelRatio == old(viewPixelRatio) && viewLogicalSize == old(viewLogicalSize)
      ensures childViewMessages == old(childViewMessages) && childViewIds == old(childViewIds)
      ensures unregisteredChannels == old(unregisteredChannels) && metricsSent == old(metricsSent)
    {
      traceId := PointerTrace(pointer.radiusMajor, pointer.radiusMinor);
      var pixelRatio := viewPixelRatio.GetOr(0.0);
      var change := ChangeFromPhase(pointer.phase);
      var data := PointerData(pointer.eventTime / 1000, change, KindFromType(pointer.pointerType),
                              pointer.pointerId, pointer.x * pixelRatio, pointer.y * pixelRatio, pointer.buttons);
      match change {
        case Down =>
          downPointers := downPointers + {data.device};
        case Cancel =>
          downPointers := downPointers - {data.device};
        case Up =>
          downPointers := downPointers - {data.device};
        case Move =>
          if data.device !in downPointers {
            data := data.(change := Hover);
          }
        case _ =>
      }
      assert data.change == ReportedChange(change, pointer.pointerId, old(downPointers));
      assert data == PointerDataFor(pointer, viewPixelRatio, old(downPointers));
      pointerPackets := pointerPackets + [data];
      handled := true;
    }

    /** OnChildViewConnected, OnChildViewDisconnected and
        OnChildViewStateChanged: a message for the platform view of a known
        view holder; false for an unknown one. */
    method OnChildViewEvent(e: ViewEvent) returns (found: bool)
      modifies this
      ensures found <==> e.viewHolderId in childViewIds
      ensures childViewMessages == old(childViewMessages) +
                (if found then [MessageFor(e, childViewIds[e.viewHolderId])] else [])
      ensures downPointers == old(downPointers) && pointerPackets == old(pointerPackets)
      ensures viewPixelRatio == old(viewPixelRatio) && viewLogicalSize == old(viewLogicalSize)
      ensures childViewIds == old(childViewIds)
      ensures unregisteredChannels == old(unregisteredChannels) && metricsSent == old(metricsSent)
    {
      if e.viewHolderId !in childViewIds {
        return false;
      }
      childViewMessages := childViewMessages + [MessageFor(e, childViewIds[e.viewHolderId])];
      return true;
    }

    /** The handling of one Scenic event inside OnScenicEvent. */
    method HandleScenicEvent(e: ScenicEvent) returns (changed: bool, deferred: seq<ViewEvent>)
      requires Valid()
      modifies this
      ensures Valid()
      ensures var effect := EventEffect(old(Snapshot()), childViewIds, e);
              Snapshot() == effect.state && changed == effect.metricsChanged && deferred == effect.deferred
      ensures childViewIds == old(childViewIds) && metricsSent == old(metricsSent)
      ensures unregisteredChannels == old(unregisteredChannels)
    {
      changed, deferred := false, [];
      match e {
        case MetricsEvent(ratio) =>
          if ratio > 0.0 && !(viewPixelRatio.Some? && viewPixelRatio.value == ratio) {
            viewPixelRatio := Some(ratio);
            changed := true;
          }
        case ViewPropertiesChangedEvent(box) =>
          var size := LogicalSize(Max0(box.maxX - box.minX), Max0(box.maxY - box.minY));
          if size.width > 0.0 && size.height > 0.0 && !(viewLogicalSize.Some? && viewLogicalSize.value == size) {
            viewLogicalSize := Some(size);
            changed := true;
          }
        case ChildViewEvent(v) =>
          var found := OnChildViewEvent(v);
          if !found {
            deferred := [v];
          }
        case PointerInput(p) =>
          var handled, traceId := OnHandlePointerEvent(p);
        case KeyboardInput =>
        case OtherEvent =>
      }
    }

    /** OnScenicEvent: handles the events in order, returns the child-view
        events whose view holder was not yet known (to be retried later),
        and informs the engine of the viewport metrics once if they
        changed. */
    method OnScenicEvent(events: seq<ScenicEvent>) returns (deferred: seq<ViewEvent>)
      requires Valid()
      modifies this
      ensures Valid()
      ensures var effect := BatchEffect(old(Snapshot()), childViewIds, events);
              Snapshot() == effect.state && deferred == effect.deferred &&
              metricsSent == old(metricsSent) + MetricsToSend(effect.state, effect.metricsChanged)
      ensures childViewIds == old(childViewIds) && unregisteredChannels == old(unregisteredChannels)
    {
      ghost var start := Snapshot();
      var metricsChanged := false;
      deferred := [];
      var i := 0;
      while i < |events|
        invariant 0 <= i <= |events| && Valid()
        invariant childViewIds == old(childViewIds) && metricsSent == old(metricsSent)
        invariant unregisteredChannels == old(unregisteredChannels)
        invariant BatchEffect(start, childViewIds, events[..i]) == Effect(Snapshot(), metricsChanged, deferred)
      {
        assert events[..i + 1][..i] == events[..i];
        var changed, more := HandleScenicEvent(events[i]);
        metricsChanged := metricsChanged || changed;
        deferred := deferred + more;
        i := i + 1;
      }
      assert events[..|events|] == events;
      assert BatchEffect(old(Snapshot()), childViewIds, events) == Effect(Snapshot(), metricsChanged, deferred);
      if viewPixelRatio.Some? && viewLogicalSize.Some? && metricsChanged {
        metricsSent := metricsSent + [MetricsFor(viewPixelRatio.value, viewLogicalSize.value)];
      }
    }

    /** The retry of deferred child-view events, posted to the platform
        thread: each is handled again, in order.  Returns whether each view
        holder was found. */
    method RetryDeferred(deferred: seq<ViewEvent>) returns (found: seq<bool>)
      modifies this
      ensures |found| == |deferred|
      ensures forall k | 0 <= k < |deferred| :: found[k] <==> deferred[k].viewHolderId in childViewIds
      ensures childViewMessages == old(childViewMessages) + MessagesFor(deferred, childViewIds)
      ensures childViewIds == old(childViewIds) && Snapshot() == old(Snapshot()).(messages := childViewMessages)
    {
      found := [];
      var i := 0;
      while i < |deferred|
        invariant 0 <= i <= |deferred| && |found| == i
        invariant forall k | 0 <= k < i :: found[k] <==> deferred[k].viewHolderId in childViewIds
        invariant childViewMessages == old(childViewMessages) + MessagesFor(deferred[..i], childViewIds)
        invariant childViewIds == old(childViewIds) && Snapshot() == old(Snapshot()).(messages := childViewMessages)
      {
        assert deferred[..i + 1][..i] == deferred[..i];
        var f := OnChildViewEvent(deferred[i]);
        found := found + [f];
        i := i + 1;
      }
      assert deferred[..|deferred|] == deferred;
    }

    /** The on_view_bound callback: the view holder now belongs to the
        platform view.  The holder must not be bound yet. */
    method OnViewBound(resourceId: nat, viewId: int)
      requires resourceId !in childViewIds
      modifies this
      ensures childViewIds == old(childViewIds)[resourceId := viewId]
      ensures Snapshot() == old(Snapshot())
    {
      childViewIds := childViewIds[resourceId := viewId];
    }

    /** The on_view_unbound callback: the view holder is forgotten.  The
        holder must be bound. */
    method OnViewUnbound(resourceId: nat)
      requires resourceId in childViewIds
      modifies this
      ensures childViewIds == old(childViewIds) - {resourceId}
      ensures Snapshot() == old(Snapshot())
    {
      childViewIds := childViewIds - {resourceId};
    }

    /** HandlePlatformMessage: nothing for a null message; a message on a
        channel with a handler goes to the handler; any other gets the
        default empty response, and its channel is logged the first time
        only.  Returns whether it was logged. */
    method HandlePlatformMessage(channel: Option<string>) returns (logged: bool)
      requires Valid()
      modifies this
      ensures Valid()
      ensures logged <==> channel.Some? && channel.value !in handlerChannels &&
                          channel.value !in old(unregisteredChannels)
      ensures channel.Some? && channel.value in handlerChannels ==>
                handledMessages == old(handledMessages) + [channel.value] &&
                defaultResponses == old(defaultResponses) && unregisteredChannels == old(unregisteredChannels)
      ensures channel.Some? && channel.value !in handlerChannels ==>
                handledMessages == old(handledMessages) &&
                defaultResponses == old(defaultResponses) + [channel.value] &&
                unregisteredChannels == old(unregisteredChannels) + {channel.value}
      ensures channel.None? ==>
                handledMessages == old(handledMessages) &&
                defaultResponses == old(defaultResponses) && unregisteredChannels == old(unregisteredChannels)
      ensures unregisteredLog == old(unregisteredLog) + (if logged then [channel.value] else [])
      ensures Snapshot() == old(Snapshot()) && childViewIds == old(childViewIds)
    {
      logged := false;
      if channel.None? {
        return;
      }
      var name := channel.value;
      if name !in handlerChannels {
        if name !in unregisteredChannels {
          unregisteredLog := unregisteredLog + [name];
          logged := true;
          unregisteredChannels := unregisteredChannels + {name};
        }
        defaultResponses := defaultResponses + [name];
        return;
      }
      handledMessages := handledMessages + [name];
    }
  }

  /** The messages sent for a sequence of child-view events, skipping those
      whose view holder is unknown. */
  function MessagesFor(events: seq<ViewEvent>, childViewIds: map<nat, int>): seq<ChildViewMessage> {
    if events == [] then []
    else
      var last := events[|events| - 1];
      MessagesFor(events[..|events| - 1], childViewIds) +
      (if last.viewHolderId in childViewIds then [MessageFor(last, childViewIds[last.viewHolderId])] else [])
  }
}

/** What the platform view's event handling promises. */
module FuchsiaPlatformViewProperties {
  import opened Wrappers
  import opened FuchsiaPlatformViews

  /** Every known phase reports its own change and every change comes from
      exactly one known phase; a phase outside the enumeration cancels. */
  lemma PhasesMatchChanges(p: Phase, c: Change)
    ensures !p.UnknownPhase? ==> PhaseOf(ChangeFromPhase(p)) == p
    ensures ChangeFromPhase(PhaseOf(c)) == c
    ensures p.UnknownPhase? ==> ChangeFromPhase(p) == Cancel
  {
  }

  /** Only a mouse is reported as a mouse; everything else is touch. */
  lemma KindIsTouchUnlessMouse(t: PointerType)
    ensures KindFromType(t) == Mouse <==> t == MousePointer
    ensures KindFromType(t) != Mouse ==> KindFromType(t) == Touch
  {
  }

  /** The trace id keeps both floats' bits: the first in the high half, the
      second in the low half. */
  lemma TraceKeepsBothHalves(major: bv32, minor: bv32)
    ensures (PointerTrace(major, minor) >> 32) as bv32 == major
    ensures (PointerTrace(major, minor) & 0xFFFF_FFFF) as bv32 == minor
  {
  }

  /** A move is reported as a move exactly when its pointer is down, and as
      a hover otherwise; other changes are reported as they came. */
  lemma MoveOnlyWhileDown(e: PointerEvent, pixelRatio: Option<real>, down: set<nat>)
    ensures PointerDataFor(e, pixelRatio, down).change == Move <==> e.phase == MovePhase && e.pointerId in down
    ensures PointerDataFor(e, pixelRatio, down).change == Hover <==>
              e.phase == HoverPhase || (e.phase == MovePhase && e.pointerId !in down)
    ensures e.phase != MovePhase ==> PointerDataFor(e, pixelRatio, down).change == ChangeFromPhase(e.phase)
  {
  }

  /** A pointer pressed and then moved is reported as moving; released or
      cancelled and then moved, as hovering. */
  lemma PressThenMove(s: State, ids: map<nat, int>, press: PointerEvent, move: PointerEvent)
    requires move.phase == MovePhase && press.pointerId == move.pointerId
    ensures var after := EventEffect(EventEffect(s, ids, PointerInput(press)).state, ids, PointerInput(move)).state;
            |after.packets| == |s.packets| + 2 &&
            (press.phase == DownPhase ==> after.packets[|after.packets| - 1].change == Move) &&
            (press.phase in {UpPhase, CancelPhase} ==> after.packets[|after.packets| - 1].change == Hover)
  {
  }

  /** The same pixel ratio or view size arriving twice changes the metrics
      at most once. */
  lemma RepeatedMetricsAreIgnored(s: State, ids: map<nat, int>, e: ScenicEvent)
    requires e.MetricsEvent? || e.ViewPropertiesChangedEvent?
    ensures var once := EventEffect(s, ids, e).state;
            EventEffect(once, ids, e) == Effect(once, false, [])
  {
  }

  /** A state whose known pixel ratio and size are positive. */
  predicate Positive(s: State) {
    (s.pixelRatio.Some? ==> s.pixelRatio.value > 0.0) &&
    (s.logicalSize.Some? ==> s.logicalSize.value.width > 0.0 && s.logicalSize.value.height > 0.0)
  }

  /** Over a batch, invalid metrics never get in, and when the batch does
      not report a change the pixel ratio and size are as they were. */
  lemma {:induction false} BatchKeepsMetrics(s: State, ids: map<nat, int>, events: seq<ScenicEvent>)
    requires Positive(s)
    ensures Positive(BatchEffect(s, ids, events).state)
    ensures !BatchEffect(s, ids, events).metricsChanged ==>
              BatchEffect(s, ids, events).state.pixelRatio == s.pixelRatio &&
              BatchEffect(s, ids, events).state.logicalSize == s.logicalSize
  {
    if events != [] {
      BatchKeepsMetrics(s, ids, events[..|events| - 1]);
    }
  }

  /** The child-view events of a batch. */
  function ViewEventsIn(events: seq<ScenicEvent>): nat {
    if events == [] then 0
    else ViewEventsIn(events[..|events| - 1]) + (if events[|events| - 1].ChildViewEvent? then 1 else 0)
  }

  /** Every child-view event of a batch is either answered with a message
      or deferred, and only events for unknown view holders are
      deferred. */
  lemma {:induction false} ViewEventsAnsweredOrDeferred(s: State, ids: map<nat, int>, events: seq<ScenicEvent>)
    ensures var effect := BatchEffect(s, ids, events);
            |effect.state.messages| - |s.messages| + |effect.deferred| == ViewEventsIn(events) &&
            forall k | 0 <= k < |effect.deferred| :: effect.deferred[k].viewHolderId !in ids
  {
    if events != [] {
      ViewEventsAnsweredOrDeferred(s, ids, events[..|events| - 1]);
    }
  }

  /** The engine hears of the metrics once both are known, with the
      physical size scaled by the ratio, and not again for the same
      values. */
  method MetricsAfterRatioAndSize() returns (sent: seq<ViewportMetrics>)
    ensures sent == [ViewportMetrics(2.0, 200.0, 100.0)]
  {
    var view := new PlatformView();
    var deferred := view.OnScenicEvent([MetricsEvent(2.0)]);
    assert [MetricsEvent(2.0)][..0] == [];
    assert view.metricsSent == [];
    deferred := view.OnScenicEvent([ViewPropertiesChangedEvent(BoundingBox(0.0, 0.0, 100.0, 50.0))]);
    assert [ViewPropertiesChangedEvent(BoundingBox(0.0, 0.0, 100.0, 50.0))][..0] == [];
    deferred := view.OnScenicEvent([MetricsEvent(2.0)]);
    sent := view.metricsSent;
  }

  /** A channel without a handler is logged on its first message only; a
      channel with a handler is never logged. */
  method UnregisteredChannelLoggedOnce() returns (first: bool, second: bool, registered: bool)
    ensures first && !second && !registered
  {
    var view := new PlatformView();
    first := view.HandlePlatformMessage(Some("flutter/unknown"));
    second := view.HandlePlatformMessage(Some("flutter/unknown"));
    registered := view.HandlePlatformMessage(Some(FlutterPlatformChannel));
  }
}
