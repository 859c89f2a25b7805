/** What the Linux engine's locale parsing and message plumbing promise: a
    locale name and its parts determine each other, each part is free of its
    own separator, every registered handler's data is released exactly once,
    and an engine that is not running sends nothing. */
module LinuxEngineProperties {
  import opened Wrappers
  import opened LinuxEngines

  /** Putting back the separator that was cut gives the string again. */
  lemma SplitAtLastJoins(s: string, c: char)
    ensures SplitAtLast(s, c).0 + Part(c, SplitAtLast(s, c).1) == s
  {
    match LastIndex(s, c)
    case None =>
    case Some(i) =>
      assert s[..i] + ([c] + s[i + 1..]) == s[..i] + s[i..];
      assert s[..i] + s[i..] == s;
  }

  /** Joining the parts of a parsed locale, each after its separator,
      gives back the name it was parsed from. */
  lemma LocaleNameRoundTrip(name: string)
    ensures LocaleName(ParsedLocale(name)) == name
  {
    SplitAtLastJoins(name, '@');
    var withoutModifier := SplitAtLast(name, '@').0;
    SplitAtLastJoins(withoutModifier, '.');
    var withoutCodeset := SplitAtLast(withoutModifier, '.').0;
    SplitAtLastJoins(withoutCodeset, '_');
  }

  /** The modifier holds no '@', the codeset no '.' and the territory no
      '_'. */
  lemma PartsLackTheirSeparator(name: string)
    ensures var l := ParsedLocale(name);
            (l.variantCode.Some? ==> forall k | 0 <= k < |l.variantCode.value| :: l.variantCode.value[k] != '@') &&
            (l.scriptCode.Some? ==> forall k | 0 <= k < |l.scriptCode.value| :: l.scriptCode.value[k] != '.') &&
            (l.countryCode.Some? ==> forall k | 0 <= k < |l.countryCode.value| :: l.countryCode.value[k] != '_')
  {
  }

  /** Text with none of the three separators. */
  predicate Plain(s: string) {
    forall k | 0 <= k < |s| :: s[k] != '_' && s[k] != '.' && s[k] != '@'
  }

  predicate PlainPart(part: Option<string>) {
    part.Some? ==> Plain(part.value)
  }

  /** A locale whose parts hold no separators. */
  predicate PlainLocale(l: FlutterLocale) {
    Plain(l.languageCode) && PlainPart(l.countryCode) && PlainPart(l.scriptCode) && PlainPart(l.variantCode)
  }

  /** Where a separator is added last before separator-free text, that is
      where the cut falls; without one, nothing is cut. */
  lemma CutAtAddedSeparator(before: string, c: char, part: Option<string>)
    requires forall k | 0 <= k < |before| :: before[k] != c
    requires PlainPart(part) && (c == '_' || c == '.' || c == '@')
    ensures SplitAtLast(before + Part(c, part), c) == (before, part)
  {
    match part
    case None =>
      assert before + Part(c, part) == before;
    case Some(p) =>
      assert forall k | 0 <= k < |p| :: p[k] != c;
      CutBeforeFreeText(before, c, p);
  }

  /** The cut falls at a separator followed by text free of it. */
  lemma CutBeforeFreeText(before: string, c: char, p: string)
    requires forall k | 0 <= k < |p| :: p[k] != c
    ensures SplitAtLast(before + ([c] + p), c) == (before, Some(p))
  {
    var s := before + ([c] + p);
    var i := |before|;
    forall k | i < k < |s|
      ensures s[k] != c
    {
      assert s[k] == p[k - i - 1];
    }
    LastIndexIs(s, c, i);
    assert s[..i] == before;
    assert s[i + 1..] == p;
  }

  /** The last occurrence is the one with no `c` after it. */
  lemma LastIndexIs(s: string, c: char, i: nat)
    requires i < |s| && s[i] == c
    requires forall k | i < k < |s| :: s[k] != c
    ensures LastIndex(s, c) == Some(i)
  {
    var r := LastIndex(s, c);
    assert r.Some? && s[i] == c;
  }

  /** Text made of plain parts and separators other than `c` holds no
      `c`. */
  lemma NoSeparatorIn(a: string, b: string, c: char)
    requires forall k | 0 <= k < |a| :: a[k] != c
    requires forall k | 0 <= k < |b| :: b[k] != c
    ensures forall k | 0 <= k < |a + b| :: (a + b)[k] != c
  {
    forall k | 0 <= k < |a + b|
      ensures (a + b)[k] != c
    {
      if k >= |a| {
        assert (a + b)[k] == b[k - |a|];
      }
    }
  }

  /** Parsing the name of a locale whose parts hold no separators gives the
      locale back: together with LocaleNameRoundTrip, names and such locales
      determine each other. */
  lemma ParsedLocaleOfName(l: FlutterLocale)
    requires PlainLocale(l)
    ensures ParsedLocale(LocaleName(l)) == l
  {
    var language := l.languageCode;
    var territory := Part('_', l.countryCode);
    var codeset := Part('.', l.scriptCode);
    var withoutCodeset := language + territory;
    var withoutModifier := withoutCodeset + codeset;
    assert forall k | 0 <= k < |territory| :: territory[k] != '.' && territory[k] != '@' by {
      if l.countryCode.Some? {
        forall k | 0 <= k < |territory| ensures territory[k] != '.' && territory[k] != '@' {
          if k > 0 {
            assert territory[k] == l.countryCode.value[k - 1];
          }
        }
      }
    }
    assert forall k | 0 <= k < |codeset| :: codeset[k] != '@' by {
      if l.scriptCode.Some? {
        forall k | 0 <= k < |codeset| ensures codeset[k] != '@' {
          if k > 0 {
            assert codeset[k] == l.scriptCode.value[k - 1];
          }
        }
      }
    }
    NoSeparatorIn(language, territory, '.');
    NoSeparatorIn(language, territory, '@');
    NoSeparatorIn(withoutCodeset, codeset, '@');
    CutAtAddedSeparator(withoutModifier, '@', l.variantCode);
    CutAtAddedSeparator(withoutCodeset, '.', l.scriptCode);
    CutAtAddedSeparator(language, '_', l.countryCode);
  }

  /** Each handler's data is released exactly once: when the next handler
      replaces it, and the last one when the engine is disposed.  A null
      handler in between is refused and releases nothing. */
  method HandlerDataReleasedOnce(first: nat, firstData: nat, firstNotify: nat,
                                 second: nat, secondData: nat, secondNotify: nat)
    returns (released: seq<Release>)
    ensures released == [Release(firstNotify, Some(firstData)), Release(secondNotify, Some(secondData))]
  {
    var engine := new FlEngine();
    engine.SetPlatformMessageHandler(Some(first), Some(firstData), Some(firstNotify));
    assert engine.releases == [];
    engine.SetPlatformMessageHandler(None, None, None);
    engine.SetPlatformMessageHandler(Some(second), Some(secondData), Some(secondNotify));
    assert engine.releases == [Release(firstNotify, Some(firstData))];
    engine.Dispose();
    released := engine.releases;
  }

  /** An engine that was never started sends nothing: responses fail with
      "No engine to send response to", a message with a callback fails with
      "No engine to send to", and every other send is dropped. */
  method NotStartedSendsNothing(handle: nat, channel: string, message: Bytes)
    returns (responseError: Option<string>, callbackError: Option<string>, sent: seq<EmbedderCall>)
    ensures responseError == Some("No engine to send response to")
    ensures callbackError == Some("No engine to send to")
    ensures sent == []
  {
    var engine := new FlEngine();
    var ok;
    ok, responseError := engine.SendPlatformMessageResponse(Some(handle), Some(message), true);
    callbackError := engine.SendPlatformMessage(channel, Some(message), true, handle, true, true);
    var dropped := engine.SendPlatformMessage(channel, Some(message), false, handle, true, true);
    engine.SendWindowMetricsEvent(800, 600, 1.0);
    engine.SendMousePointerEvent(Down, 0, 1.0, 2.0, 0.0, 3.0, 1);
    engine.DispatchSemanticsActionTo(1, 1, None);
    sent := engine.calls;
  }

  /** A message nobody handles is answered with an empty response, so the
      sender is never left waiting. */
  method UnhandledMessageGetsEmptyResponse(channel: string, message: Bytes, handle: nat)
    returns (handled: bool, sent: seq<EmbedderCall>)
    ensures !handled
    ensures sent == [SendResponse(handle, [])]
  {
    var engine := new FlEngine();
    var started, error := engine.Start([], true, true, true);
    handled := engine.OnPlatformMessage(channel, message, Some(handle), true, true);
    sent := engine.calls[1..];
  }
}
