/** The test page that drives WebRTC in a browser
    (org.kurento.test.browser.WebRtcTestPage): its single-shot event
    subscriptions and the instructions it issues to set up the SDP exchange. */
module Browser {
  import opened Wrappers
  import Base64

  /** An instruction to the page: a script run for its effect, or one whose
      output is waited for. */
  datatype Instruction = Execute(script: string) | ExecuteAndWait(script: string)

  /** WebRtcChannel: its `toString` and its optional media-constraints script. */
  datatype WebRtcChannel = WebRtcChannel(name: string, jsFunction: Option<string>)

  /** WebRtcMode: its `toString` and the script that creates the peer. */
  datatype WebRtcMode = WebRtcMode(name: string, jsFunction: string)

  /** The listener thread `addEventListener` starts, keyed by the browser id
      and event type it captured. */
  datatype Listener = Listener(videoTag: string, eventType: string, key: string)

  /** The key of a subscription: plain concatenation of browser id and event type. */
  function EventKey(browserId: string, eventType: string): (k: string)
    ensures |k| == |browserId| + |eventType|
    ensures k[..|browserId|] == browserId && k[|browserId|..] == eventType
  {
    browserId + eventType
  }

  /** A call `name('argument');` to a page function. */
  function ScriptCall(name: string, argument: string): string {
    name + "('" + argument + "');"
  }

  const ReadOffer: Instruction := ExecuteAndWait("return sdpOffer;")

  /** The instructions `initWebRtcSdpProcessor` issues, with `answer` the bytes
      of the SDP answer that the offer processor returned: the titles, the
      optional configuration, then the exchange itself. */
  function SdpProcessorTrace(testName: string, mode: WebRtcMode, channel: WebRtcChannel,
                             audio: Option<string>, answer: seq<Base64.byte>): (t: seq<Instruction>)
    ensures 6 <= |t| <= 8
    ensures t[|t| - 2] == ReadOffer
    ensures t[|t| - 1] == Execute(ScriptCall("processSdpAnswer", Base64.Encode(answer)))
  {
    Titles(testName, mode, channel) + Configuration(audio, channel) + Exchange(mode, answer)
  }

  function Titles(testName: string, mode: WebRtcMode, channel: WebRtcChannel): seq<Instruction> {
    [Execute(ScriptCall("addTestName", testName)),
     Execute(ScriptCall("appendStringToTitle", mode.name)),
     Execute(ScriptCall("appendStringToTitle", channel.name))]
  }

  function Configuration(audio: Option<string>, channel: WebRtcChannel): seq<Instruction> {
    (if audio.Some? then [Execute(ScriptCall("setCustomAudio", audio.value))] else [])
    + (if channel.jsFunction.Some? then [Execute(channel.jsFunction.value)] else [])
  }

  function Exchange(mode: WebRtcMode, answer: seq<Base64.byte>): seq<Instruction> {
    [Execute(mode.jsFunction), ReadOffer, Execute(ScriptCall("processSdpAnswer", Base64.Encode(answer)))]
  }

  /** The order of the instructions: test name, mode title, channel title,
      custom audio only when there is one, the channel's script only when it
      has one, the mode's script, the offer read, and the answer last. */
  lemma SdpProcessorTraceOrder(testName: string, mode: WebRtcMode, channel: WebRtcChannel,
                               audio: Option<string>, answer: seq<Base64.byte>)
    ensures var t := SdpProcessorTrace(testName, mode, channel, audio, answer);
      var a := if audio.Some? then 1 else 0;
      var c := if channel.jsFunction.Some? then 1 else 0;
      && |t| == 6 + a + c
      && t[0] == Execute(ScriptCall("addTestName", testName))
      && t[1] == Execute(ScriptCall("appendStringToTitle", mode.name))
      && t[2] == Execute(ScriptCall("appendStringToTitle", channel.name))
      && (audio.Some? ==> t[3] == Execute(ScriptCall("setCustomAudio", audio.value)))
      && (channel.jsFunction.Some? ==> t[3 + a] == Execute(channel.jsFunction.value))
      && t[3 + a + c] == Execute(mode.jsFunction)
      && t[4 + a + c] == ReadOffer
      && t[5 + a + c].Execute?
      && (forall i :: 0 <= i < |t| && t[i].ExecuteAndWait? ==> i == 4 + a + c)
  {
  }

  /** The last instruction hands the page the answer as a base 64 literal that
      needs no escaping and decodes to exactly the answer's bytes. */
  lemma SdpAnswerIsBase64(testName: string, mode: WebRtcMode, channel: WebRtcChannel,
                          audio: Option<string>, answer: seq<Base64.byte>)
    ensures var t := SdpProcessorTrace(testName, mode, channel, audio, answer);
      exists p :: t[|t| - 1] == Execute(ScriptCall("processSdpAnswer", p))
        && Base64.Decode(p) == Some(answer) && '\'' !in p && '\n' !in p
  {
    var p := Base64.Encode(answer);
    Base64.DecodeEncode(answer);
    Base64.EncodeIsLiteralSafe(answer);
    assert '\'' !in p && '\n' !in p;
  }

  lemma AppendThree<T>(s: seq<T>, x: T, y: T, z: T)
    ensures s + [x] + [y] + [z] == s + [x, y, z]
  {
  }

  lemma AppendParts<T>(s: seq<T>, a: seq<T>, b: seq<T>, c: seq<T>)
    ensures s + a + b + c == s + (a + b + c)
  {
  }

  class WebRtcTestPage {
    /** `countDownLatchEvents`: for each key with a latch, whether it has been
        counted down. */
    var latches: map<string, bool>
    /** `callbackThreads`: the listeners started, in order. */
    var listeners: seq<Listener>
    /** The instructions issued to the page, in order. */
    var trace: seq<Instruction>

    /** Every latch was created together with a listener for its key. */
    ghost predicate Valid()
      reads this
    {
      latches.Keys <= set l | l in listeners :: l.key
    }

    constructor ()
      ensures Valid() && latches == map[] && listeners == [] && trace == []
    {
      latches := map[];
      listeners := [];
      trace := [];
    }

    /** `addEventListener`: starts the listener thread, which makes a latch
        just stored under `key` one with a listener. */
    method AddEventListener(videoTag: string, eventType: string, key: string)
      requires latches.Keys <= (set l | l in listeners :: l.key) + {key}
      modifies this
      ensures Valid()
      ensures listeners == old(listeners) + [Listener(videoTag, eventType, key)]
      ensures latches == old(latches) && trace == old(trace)
    {
      listeners := listeners + [Listener(videoTag, eventType, key)];
    }

    /** A fresh count-1 latch under `browserId + eventType`, replacing any
        earlier one, and a listener that counts it down. */
    method SubscribeEventsToVideoTag(browserId: string, videoTag: string, eventType: string)
      requires Valid()
      modifies this
      ensures Valid()
      ensures latches == old(latches)[EventKey(browserId, eventType) := false]
      ensures listeners == old(listeners) + [Listener(videoTag, eventType, EventKey(browserId, eventType))]
      ensures trace == old(trace)
    {
      var key := EventKey(browserId, eventType);
      latches := latches[key := false];
      AddEventListener(videoTag, eventType, key);
    }

    /** `subscribeEvents`: on the remote video tag. */
    method SubscribeEvents(browserId: string, eventType: string)
      requires Valid()
      modifies this
      ensures Valid()
      ensures latches == old(latches)[EventKey(browserId, eventType) := false]
      ensures listeners == old(listeners) + [Listener("video", eventType, EventKey(browserId, eventType))]
      ensures trace == old(trace)
    {
      SubscribeEventsToVideoTag(browserId, "video", eventType);
    }

    /** `subscribeLocalEvents`: on the local video tag. */
    method SubscribeLocalEvents(browserId: string, eventType: string)
      requires Valid()
      modifies this
      ensures Valid()
      ensures latches == old(latches)[EventKey(browserId, eventType) := false]
      ensures listeners == old(listeners) + [Listener("local", eventType, EventKey(browserId, eventType))]
      ensures trace == old(trace)
    {
      SubscribeEventsToVideoTag(browserId, "local", eventType);
    }

    /** Listener `i` observed its event: the latch now stored under its key
        (looked up at this moment) is counted down. With no latch under the
        key the lookup yields null and the listener thread dies; nothing
        changes. Counting down a latch that already fired changes nothing. */
    method OnEvent(i: nat)
      requires Valid() && i < |listeners|
      modifies this
      ensures listeners == old(listeners) && trace == old(trace)
      ensures Valid()
      ensures var key := old(listeners)[i].key;
        latches == if key in old(latches) then old(latches)[key := true] else old(latches)
    {
      var key := listeners[i].key;
      if key in latches {
        latches := latches[key := true];
      }
    }

    /** No latch under the key: false at once. Otherwise whether the latch was
        counted down (the timed await, with the timeout already over), and the
        latch is removed whatever the outcome. */
    method WaitForEvent(browserId: string, eventType: string) returns (fired: bool)
      requires Valid()
      modifies this
      ensures Valid()
      ensures var key := EventKey(browserId, eventType);
        && (key !in old(latches) ==> !fired && latches == old(latches))
        && (key in old(latches) ==> fired == old(latches)[key] && latches == old(latches) - {key})
      ensures listeners == old(listeners) && trace == old(trace)
    {
      var key := EventKey(browserId, eventType);
      if key !in latches {
        return false;
      }
      fired := latches[key];
      latches := latches - {key};
    }

    /** Stops the peer, resets the page's test object and drops every
        subscription. */
    method StopWebRtc()
      requires Valid()
      modifies this
      ensures Valid()
      ensures latches == map[] && listeners == old(listeners)
      ensures trace == old(trace) + [Execute("stop();"), Execute("var kurentoTest = new KurentoTest();")]
    {
      trace := trace + [Execute("stop();")];
      trace := trace + [Execute("var kurentoTest = new KurentoTest();")];
      latches := map[];
    }

    /** Sets up the page and exchanges SDP. `offer` is what the page returns
        for the offer read, `processor` stands for `processSdpOffer` and
        `charset` for `String.getBytes` in the platform's default charset. */
    method InitWebRtcSdpProcessor(processor: string -> string, charset: string -> seq<Base64.byte>,
                                  channel: WebRtcChannel, mode: WebRtcMode,
                                  testCaseName: string, testName: string, audio: Option<string>, offer: string)
      requires Valid()
      modifies this
      ensures Valid()
      ensures trace == old(trace)
        + SdpProcessorTrace(testCaseName + "." + testName, mode, channel, audio, charset(processor(offer)))
      ensures latches == old(latches) && listeners == old(listeners)
    {
      ghost var before := trace;
      var fullName := testCaseName + "." + testName;
      Issue(Execute(ScriptCall("addTestName", fullName)));
      Issue(Execute(ScriptCall("appendStringToTitle", mode.name)));
      Issue(Execute(ScriptCall("appendStringToTitle", channel.name)));
      AppendThree(before, Execute(ScriptCall("addTestName", fullName)),
        Execute(ScriptCall("appendStringToTitle", mode.name)),
        Execute(ScriptCall("appendStringToTitle", channel.name)));
      ghost var titled := trace;
      if audio.Some? {
        Issue(Execute(ScriptCall("setCustomAudio", audio.value)));
      }
      if channel.jsFunction.Some? {
        Issue(Execute(channel.jsFunction.value));
      }
      ghost var configured := trace;
      assert configured == titled + Configuration(audio, channel);
      Issue(Execute(mode.jsFunction));
      Issue(ReadOffer);
      var sdpAnswer := processor(offer);
      var encoded := Base64.Encode(charset(sdpAnswer));
      Issue(Execute(ScriptCall("processSdpAnswer", encoded)));
      AppendThree(configured, Execute(mode.jsFunction), ReadOffer,
        Execute(ScriptCall("processSdpAnswer", encoded)));
      AppendParts(before, Titles(fullName, mode, channel), Configuration(audio, channel),
        Exchange(mode, charset(sdpAnswer)));
    }

    /** One instruction issued to the page. */
    method Issue(instruction: Instruction)
      modifies this
      ensures trace == old(trace) + [instruction] && latches == old(latches) && listeners == old(listeners)
    {
      trace := trace + [instruction];
    }
  }

  /** Every subscription can be signalled: on a page whose latches all have a
      listener, firing the listener of any subscribed key counts its latch
      down, so the next wait for it would report the event. */
  method EverySubscriptionCanFire(page: WebRtcTestPage, key: string) returns (i: nat)
    requires page.Valid() && key in page.latches
    modifies page
    ensures page.Valid()
    ensures i < |page.listeners| && page.listeners[i].key == key
    ensures key in page.latches && page.latches[key]
  {
    i :| i < |page.listeners| && page.listeners[i].key == key;
    page.OnEvent(i);
  }

  /** A wait consumes its subscription: after a subscribe and a signal the
      first wait reports the event and a second one, with no new subscribe,
      reports false. */
  method WaitConsumesSubscription(page: WebRtcTestPage, browserId: string, eventType: string)
    returns (first: bool, second: bool)
    requires page.Valid()
    modifies page
    ensures page.Valid()
    ensures first && !second
    ensures EventKey(browserId, eventType) !in page.latches
  {
    page.SubscribeEvents(browserId, eventType);
    page.OnEvent(|page.listeners| - 1);
    first := page.WaitForEvent(browserId, eventType);
    second := page.WaitForEvent(browserId, eventType);
  }

  /** A wait that was never signalled reports false and still removes the
      latch, so the listener's late signal changes nothing; after
      `stopWebRtc` even a signalled subscription is gone. */
  method UnsignalledAndStopped(page: WebRtcTestPage, browserId: string, eventType: string)
    returns (timedOut: bool, afterStop: bool)
    requires page.Valid()
    modifies page
    ensures page.Valid()
    ensures !timedOut && !afterStop
    ensures page.latches == map[]
  {
    page.SubscribeLocalEvents(browserId, eventType);
    var late := |page.listeners| - 1;
    timedOut := page.WaitForEvent(browserId, eventType);
    page.OnEvent(late);
    page.SubscribeEvents(browserId, eventType);
    page.OnEvent(|page.listeners| - 1);
    page.StopWebRtc();
    afterStop := page.WaitForEvent(browserId, eventType);
  }

  /** Keys are plain concatenations: browser "ab" with event "c" and browser
      "a" with event "bc" share one subscription. */
  method KeysCollide(page: WebRtcTestPage) returns (other: bool, again: bool)
    requires page.Valid()
    modifies page
    ensures page.Valid()
    ensures other && !again
  {
    page.SubscribeEvents("ab", "c");
    page.OnEvent(|page.listeners| - 1);
    assert EventKey("a", "bc") == EventKey("ab", "c");
    other := page.WaitForEvent("a", "bc");
    again := page.WaitForEvent("ab", "c");
  }

  /** The video tag is not part of the key: subscribing to the same event on
      the local and on the remote tag leaves one latch, and an event on the
      local tag satisfies a wait meant for the remote one. A listener looks its
      latch up when its event fires, so the listener of a replaced
      subscription counts down the latch that replaced it. */
  method TagSharesLatch(page: WebRtcTestPage, browserId: string, eventType: string)
    returns (fired: bool)
    requires page.Valid()
    modifies page
    ensures page.Valid()
    ensures fired
  {
    page.SubscribeLocalEvents(browserId, eventType);
    var localListener := |page.listeners| - 1;
    page.SubscribeEvents(browserId, eventType);
    page.OnEvent(localListener);
    fired := page.WaitForEvent(browserId, eventType);
  }
}
