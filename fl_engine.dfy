/** FlEngine, the Linux embedder's handle on the Flutter engine: it parses
    the user's locale names into Flutter locales, routes platform messages
    from the engine to the one registered handler (answering with an empty
    response when nobody handles a message), and forwards platform messages,
    window metrics, mouse events and semantics actions to the engine — or
    drops them when no engine is running.

    The embedder proc table is foreign code: every call into it is recorded
    in the `calls` log, and what it returns is a parameter.  Handlers and
    destroy-notify functions are named by numbers; the answer a handler
    gives is a parameter, and each destroy-notify call is recorded with the
    data it was given. */
module LinuxEngines {
  import opened Wrappers

  type Bytes = seq<bv8>

  /** FlutterLocale: the four parts of a locale name; a missing part is
      null. */
  datatype FlutterLocale = FlutterLocale(languageCode: string, countryCode: Option<string>,
                                         scriptCode: Option<string>, variantCode: Option<string>)

  // ---------------------------------------------------------------------
  // Locale names: "language[_territory][.codeset][@modifier]"
  // ---------------------------------------------------------------------

  /** Where `c` last occurs in `s`, if anywhere. */
  function LastIndex(s: string, c: char): (r: Option<nat>)
    ensures r.Some? ==> r.value < |s| && s[r.value] == c && forall k | r.value < k < |s| :: s[k] != c
    ensures r.None? <==> forall k | 0 <= k < |s| :: s[k] != c
  {
    if s == [] then None
    else if s[|s| - 1] == c then Some(|s| - 1)
    else LastIndex(s[..|s| - 1], c)
  }

  /** What is left before the last `c`, and the text after it; without a
      `c`, the whole string and nothing. */
  function SplitAtLast(s: string, c: char): (string, Option<string>) {
    match LastIndex(s, c)
    case None => (s, None)
    case Some(i) => (s[..i], Some(s[i + 1..]))
  }

  /** The locale a name denotes: the modifier after the last '@', the
      codeset after the last '.' of what remains, the territory after the
      last '_' of what remains then, and the language the rest. */
  function ParsedLocale(name: string): FlutterLocale {
    var (withoutModifier, modifier) := SplitAtLast(name, '@');
    var (withoutCodeset, codeset) := SplitAtLast(withoutModifier, '.');
    var (language, territory) := SplitAtLast(withoutCodeset, '_');
    FlutterLocale(language, territory, codeset, modifier)
  }

  /** A present part with the separator that introduces it. */
  function Part(separator: char, part: Option<string>): string {
    match part
    case None => []
    case Some(p) => [separator] + p
  }

  /** The name of a locale, its absent parts left out. */
  function LocaleName(l: FlutterLocale): string {
    l.languageCode + Part('_', l.countryCode) + Part('.', l.scriptCode) + Part('@', l.variantCode)
  }

  /** A NUL-terminated string of length `len` in `a`. */
  predicate IsCString(a: array<char>, len: int)
    reads a
  {
    0 <= len < a.Length && a[len] == '\0' && forall k | 0 <= k < len :: a[k] != '\0'
  }

  /** strrchr: the position of the last `c` before the terminating NUL. */
  method FindLast(a: array<char>, ghost len: nat, c: char) returns (r: Option<nat>)
    requires IsCString(a, len) && c != '\0'
    ensures r == LastIndex(a[..len], c)
  {
    r := None;
    var i := 0;
    while a[i] != '\0'
      invariant 0 <= i <= len
      invariant r == LastIndex(a[..i], c)
      decreases len - i
    {
      assert a[..i + 1][..i] == a[..i];
      if a[i] == c {
        r := Some(i);
      }
      i := i + 1;
    }
  }

  /** g_strdup: a copy of the C string that starts at `from`. */
  method CopyFrom(a: array<char>, from: nat, ghost len: nat) returns (s: string)
    requires IsCString(a, len) && from <= len
    ensures s == a[from..len]
  {
    s := [];
    var i := from;
    while a[i] != '\0'
      invariant from <= i <= len
      invariant s == a[from..i]
      decreases len - i
    {
      s := s + [a[i]];
      i := i + 1;
    }
  }

  /** One step of parse_locale: copies out the text after the last `c`
      and ends the string at that `c` by writing a NUL over it. */
  method CutAtLast(a: array<char>, ghost len: nat, c: char) returns (part: Option<string>, ghost newLen: nat)
    requires IsCString(a, len) && c != '\0'
    modifies a
    ensures IsCString(a, newLen)
    ensures (a[..newLen], part) == SplitAtLast(old(a[..len]), c)
  {
    ghost var s := a[..len];
    var found := FindLast(a, len, c);
    if found.Some? {
      var after := CopyFrom(a, found.value + 1, len);
      assert after == s[found.value + 1..];
      part := Some(after);
      ghost var before := a[..found.value];
      assert before == s[..found.value];
      a[found.value] := '\0';
      newLen := found.value;
      assert a[..newLen] == before;
    } else {
      part := None;
      newLen := len;
    }
  }

  /** parse_locale: the parts of a locale name, cut from a copy of it. */
  method ParseLocale(name: string) returns (locale: FlutterLocale)
    requires forall k | 0 <= k < |name| :: name[k] != '\0'
    ensures locale == ParsedLocale(name)
  {
    var l := new char[|name| + 1];
    forall k | 0 <= k < l.Length {
      l[k] := if k < |name| then name[k] else '\0';
    }
    assert l[..|name|] == name;
    var modifier, codeset, territory;
    ghost var len;
    modifier, len := CutAtLast(l, |name|, '@');
    codeset, len := CutAtLast(l, len, '.');
    territory, len := CutAtLast(l, len, '_');
    var language := CopyFrom(l, 0, len);
    assert language == l[..len];
    locale := FlutterLocale(language, territory, codeset, modifier);
  }

  /** The loop of setup_locales: one locale per language name, in order. */
  method LocalesFor(languages: seq<string>) returns (locales: seq<FlutterLocale>)
    requires forall i, k | 0 <= i < |languages| && 0 <= k < |languages[i]| :: languages[i][k] != '\0'
    ensures |locales| == |languages|
    ensures forall i | 0 <= i < |languages| :: locales[i] == ParsedLocale(languages[i])
  {
    locales := [];
    var i := 0;
    while i < |languages|
      invariant 0 <= i <= |languages|
      invariant |locales| == i
      invariant forall j | 0 <= j < i :: locales[j] == ParsedLocale(languages[j])
    {
      var locale := ParseLocale(languages[i]);
      locales := locales + [locale];
      i := i + 1;
    }
  }

  // ---------------------------------------------------------------------
  // The engine
  // ---------------------------------------------------------------------

  /** FlutterPointerPhase. */
  datatype PointerPhase = Cancel | Up | Down | Move | Add | Remove | Hover

  /** FlutterPointerSignalKind; a zero-initialised event has no signal. */
  datatype SignalKind = NoSignal | ScrollSignal

  /** FlutterPointerDeviceKind. */
  datatype DeviceKind = MouseDevice | TouchDevice

  datatype PointerEvent = PointerEvent(phase: PointerPhase, timestamp: nat, x: real, y: real,
                                       signalKind: SignalKind, scrollDeltaX: real, scrollDeltaY: real,
                                       deviceKind: DeviceKind, buttons: int)

  /** The calls made into the embedder proc table. */
  datatype EmbedderCall =
    | UpdateLocales(locales: seq<FlutterLocale>)
    | SendResponse(handle: nat, response: Bytes)
    | CreateResponseHandle(handle: nat)
    | SendMessage(channel: string, message: Bytes, responseHandle: Option<nat>)
    | ReleaseResponseHandle(handle: nat)
    | SendWindowMetrics(width: nat, height: nat, pixelRatio: real)
    | SendPointer(event: PointerEvent)
    | DispatchSemanticsAction(id: nat, action: nat, data: Bytes)

  /** A platform message handed to the registered handler, with the data
      registered alongside it. */
  datatype Delivery = Delivery(handler: nat, channel: string, message: Bytes,
                               responseHandle: Option<nat>, userData: Option<nat>)

  /** A destroy-notify function called on the data it was registered with. */
  datatype Release = Release(destroyNotify: nat, userData: Option<nat>)

  const NoEngineForResponse := "No engine to send response to"
  const ResponseFailed := "Failed to send platform message response"
  const NoEngineToSendTo := "No engine to send to"
  const HandleCreationFailed := "Failed to create response handle"
  const SendFailed := "Failed to send platform messages"

  class FlEngine {
    /** Whether `engine` is non-null: set once the embedder initialised it. */
    var running: bool
    var messageHandler: Option<nat>
    var messageHandlerData: Option<nat>
    var messageHandlerDestroyNotify: Option<nat>
    var calls: seq<EmbedderCall>
    var deliveries: seq<Delivery>
    var releases: seq<Release>
    /** What g_warning reported. */
    var warnings: seq<string>

    /** A new engine: not started, no handler, nothing called yet. */
    constructor()
      ensures !running && messageHandler.None? && messageHandlerData.None? && messageHandlerDestroyNotify.None?
      ensures calls == [] && deliveries == [] && releases == [] && warnings == []
    {
      running := false;
      messageHandler := None;
      messageHandlerData := None;
      messageHandlerDestroyNotify := None;
      calls := [];
      deliveries := [];
      releases := [];
      warnings := [];
    }

    /** fl_engine_start from initialising the engine on: a failed
        Initialize leaves no engine; once it succeeds the engine is set,
        and when it also runs the user's locales are sent to it (a refusal
        only warns). */
    method Start(languages: seq<string>, initialized: bool, ran: bool, localesAccepted: bool)
      returns (started: bool, error: Option<string>)
      requires forall i, k | 0 <= i < |languages| && 0 <= k < |languages[i]| :: languages[i][k] != '\0'
      modifies this
      ensures running == (old(running) || initialized)
      ensures started <==> initialized && ran
      ensures error.None? <==> started
      ensures !initialized ==> error == Some("Failed to initialize Flutter engine")
      ensures initialized && !ran ==> error == Some("Failed to run Flutter engine")
      ensures started ==> exists locales ::
                |locales| == |languages| &&
                (forall i | 0 <= i < |languages| :: locales[i] == ParsedLocale(languages[i])) &&
                calls == old(calls) + [UpdateLocales(locales)]
      ensures !started ==> calls == old(calls)
      ensures warnings == old(warnings) + if started && !localesAccepted then ["Failed to set up Flutter locales"] else []
      ensures messageHandler == old(messageHandler) && messageHandlerData == old(messageHandlerData)
      ensures messageHandlerDestroyNotify == old(messageHandlerDestroyNotify)
      ensures deliveries == old(deliveries) && releases == old(releases)
    {
      if !initialized {
        return false, Some("Failed to initialize Flutter engine");
      }
      running := true;
      if !ran {
        return false, Some("Failed to run Flutter engine");
      }
      SetupLocales(languages, localesAccepted);
      started, error := true, None;
    }

    /** setup_locales: sends one locale per language name, in order, and
        warns when the engine refuses them. */
    method SetupLocales(languages: seq<string>, accepted: bool)
      requires forall i, k | 0 <= i < |languages| && 0 <= k < |languages[i]| :: languages[i][k] != '\0'
      modifies this`calls, this`warnings
      ensures exists locales ::
                |locales| == |languages| &&
                (forall i | 0 <= i < |languages| :: locales[i] == ParsedLocale(languages[i])) &&
                calls == old(calls) + [UpdateLocales(locales)]
      ensures warnings == old(warnings) + if accepted then [] else ["Failed to set up Flutter locales"]
    {
      var locales := LocalesFor(languages);
      calls := calls + [UpdateLocales(locales)];
      if !accepted {
        warnings := warnings + ["Failed to set up Flutter locales"];
      }
    }

    /** fl_engine_set_platform_message_handler: a null handler is refused
        and changes nothing; otherwise the previous data is released
        through the previous destroy-notify, if any, and all three fields
        are replaced. */
    method SetPlatformMessageHandler(handler: Option<nat>, userData: Option<nat>, destroyNotify: Option<nat>)
      modifies this`messageHandler, this`messageHandlerData, this`messageHandlerDestroyNotify, this`releases
      ensures handler.None? ==>
                messageHandler == old(messageHandler) && messageHandlerData == old(messageHandlerData) &&
                messageHandlerDestroyNotify == old(messageHandlerDestroyNotify) && releases == old(releases)
      ensures handler.Some? ==>
                messageHandler == handler && messageHandlerData == userData &&
                messageHandlerDestroyNotify == destroyNotify &&
                releases == old(releases) + ReleaseOf(old(messageHandlerDestroyNotify), old(messageHandlerData))
    {
      if handler.None? {
        return;
      }
      if messageHandlerDestroyNotify.Some? {
        releases := releases + [Release(messageHandlerDestroyNotify.value, messageHandlerData)];
      }
      messageHandler := handler;
      messageHandlerData := userData;
      messageHandlerDestroyNotify := destroyNotify;
    }

    /** The part of fl_engine_dispose that lets go of the handler: its data
        is released through its destroy-notify, if any, and forgotten. */
    method Dispose()
      modifies this`messageHandlerData, this`messageHandlerDestroyNotify, this`releases
      ensures messageHandlerData.None? && messageHandlerDestroyNotify.None?
      ensures releases == old(releases) + ReleaseOf(old(messageHandlerDestroyNotify), old(messageHandlerData))
    {
      if messageHandlerDestroyNotify.Some? {
        releases := releases + [Release(messageHandlerDestroyNotify.value, messageHandlerData)];
      }
      messageHandlerData := None;
      messageHandlerDestroyNotify := None;
    }

    /** fl_engine_send_platform_message_response: a null handle is refused
        without an error; without an engine nothing is sent and the error
        says so; otherwise the response (empty when null) is sent, and a
        refusal by the engine is an error. */
    method SendPlatformMessageResponse(handle: Option<nat>, response: Option<Bytes>, accepted: bool)
      returns (ok: bool, error: Option<string>)
      modifies this`calls
      ensures ok <==> handle.Some? && running && accepted
      ensures handle.None? ==> error.None?
      ensures handle.Some? && !running ==> error == Some(NoEngineForResponse)
      ensures handle.Some? && running ==> error == if accepted then None else Some(ResponseFailed)
      ensures calls == old(calls) + if handle.Some? && running then [SendResponse(handle.value, response.GetOr([]))] else []
    {
      if handle.None? {
        return false, None;
      }
      if !running {
        return false, Some(NoEngineForResponse);
      }
      calls := calls + [SendResponse(handle.value, response.GetOr([]))];
      if !accepted {
        return false, Some(ResponseFailed);
      }
      ok, error := true, None;
    }

    /** fl_engine_platform_message_cb: the registered handler gets the
        message with its data; when there is no handler, or the handler
        does not handle it, an empty response is sent in its place.
        `handlerAnswer` is what the handler returns, `responseAccepted`
        what the engine answers to the response. */
    method OnPlatformMessage(channel: string, message: Bytes, responseHandle: Option<nat>,
                             handlerAnswer: bool, responseAccepted: bool)
      returns (handled: bool)
      modifies this`calls, this`deliveries
      ensures handled <==> messageHandler.Some? && handlerAnswer
      ensures deliveries == old(deliveries) +
                if messageHandler.Some?
                then [Delivery(messageHandler.value, channel, message, responseHandle, messageHandlerData)]
                else []
      ensures calls == old(calls) + if !handled && responseHandle.Some? && running
                                    then [SendResponse(responseHandle.value, [])] else []
    {
      handled := false;
      if messageHandler.Some? {
        deliveries := deliveries + [Delivery(messageHandler.value, channel, message, responseHandle, messageHandlerData)];
        handled := handlerAnswer;
      }
      if !handled {
        var sent, error := SendPlatformMessageResponse(responseHandle, None, responseAccepted);
      }
    }

    /** fl_engine_send_platform_message.  With a callback a response handle
        (`newHandle`) is created for the reply, and every failure is
        returned to the callback as an error; without a callback a missing
        engine silently drops the message.  A created handle is released
        once the message is sent. */
    method SendPlatformMessage(channel: string, message: Option<Bytes>, hasCallback: bool, newHandle: nat,
                               handleCreated: bool, accepted: bool)
      returns (callbackError: Option<string>)
      modifies this`calls
      ensures !hasCallback ==> callbackError.None?
      ensures !running ==> calls == old(calls)
      ensures hasCallback && !running ==> callbackError == Some(NoEngineToSendTo)
      ensures hasCallback && running && !handleCreated ==>
                callbackError == Some(HandleCreationFailed) && calls == old(calls) + [CreateResponseHandle(newHandle)]
      ensures hasCallback && running && handleCreated ==>
                callbackError == (if accepted then None else Some(SendFailed)) &&
                calls == old(calls) + [CreateResponseHandle(newHandle),
                                       SendMessage(channel, message.GetOr([]), Some(newHandle)),
                                       ReleaseResponseHandle(newHandle)]
      ensures !hasCallback && running ==> calls == old(calls) + [SendMessage(channel, message.GetOr([]), None)]
    {
      var responseHandle: Option<nat> := None;
      if hasCallback {
        if !running {
          return Some(NoEngineToSendTo);
        }
        calls := calls + [CreateResponseHandle(newHandle)];
        if !handleCreated {
          return Some(HandleCreationFailed);
        }
        responseHandle := Some(newHandle);
      } else if !running {
        return None;
      }
      calls := calls + [SendMessage(channel, message.GetOr([]), responseHandle)];
      callbackError := None;
      if !accepted && hasCallback {
        callbackError := Some(SendFailed);
      }
      if responseHandle.Some? {
        calls := calls + [ReleaseResponseHandle(responseHandle.value)];
      }
    }

    /** fl_engine_send_window_metrics_event: dropped without an engine. */
    method SendWindowMetricsEvent(width: nat, height: nat, pixelRatio: real)
      modifies this`calls
      ensures calls == old(calls) + if running then [SendWindowMetrics(width, height, pixelRatio)] else []
    {
      if !running {
        return;
      }
      calls := calls + [SendWindowMetrics(width, height, pixelRatio)];
    }

    /** fl_engine_send_mouse_pointer_event: dropped without an engine;
        otherwise one mouse event carrying the given values, marked as a
        scroll exactly when a scroll delta is non-zero. */
    method SendMousePointerEvent(phase: PointerPhase, timestamp: nat, x: real, y: real,
                                 scrollDeltaX: real, scrollDeltaY: real, buttons: int)
      modifies this`calls
      ensures !running ==> calls == old(calls)
      ensures running ==>
                |calls| == |old(calls)| + 1 && calls[..|old(calls)|] == old(calls) &&
                calls[|old(calls)|].SendPointer? &&
                var e := calls[|old(calls)|].event;
                e.phase == phase && e.timestamp == timestamp && e.x == x && e.y == y &&
                e.scrollDeltaX == scrollDeltaX && e.scrollDeltaY == scrollDeltaY && e.buttons == buttons &&
                e.deviceKind == MouseDevice &&
                (e.signalKind == ScrollSignal <==> scrollDeltaX != 0.0 || scrollDeltaY != 0.0)
    {
      if !running {
        return;
      }
      var signalKind := NoSignal;
      if scrollDeltaX != 0.0 || scrollDeltaY != 0.0 {
        signalKind := ScrollSignal;
      }
      var event := PointerEvent(phase, timestamp, x, y, signalKind, scrollDeltaX, scrollDeltaY, MouseDevice, buttons);
      calls := calls + [SendPointer(event)];
    }

    /** fl_engine_dispatch_semantics_action: dropped without an engine;
        null data is sent as no data. */
    method DispatchSemanticsActionTo(id: nat, action: nat, data: Option<Bytes>)
      modifies this`calls
      ensures calls == old(calls) + if running then [DispatchSemanticsAction(id, action, data.GetOr([]))] else []
    {
      if !running {
        return;
      }
      calls := calls + [DispatchSemanticsAction(id, action, data.GetOr([]))];
    }
  }

  /** The release a destroy-notify owes its data: none without one. */
  function ReleaseOf(destroyNotify: Option<nat>, userData: Option<nat>): seq<Release> {
    match destroyNotify
    case None => []
    case Some(n) => [Release(n, userData)]
  }
}
