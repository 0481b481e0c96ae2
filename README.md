# Kurento integration-test harness: three sequential pieces, modelled in Dafny

The Kurento integration tests drive WebRTC pages in browsers against a Kurento
Media Server (KMS). They also watch video colours to measure latency and run a
system resource monitor next to the server. This project models three pieces of
sequential logic from that harness and proves how they behave. The browser, the
SSH connection, the sockets and the thread timing are left out.

- `Browser` (`WebRtcTestPage`). This is the keyed, single-shot event
  registry. `countDownLatchEvents` is the map `latches` from
  `browserId + eventType` to a flag, which says whether that key's count-1 latch
  has been counted down. `callbackThreads` is the sequence `listeners`. The
  instructions the page receives go into `trace`. `initWebRtcSdpProcessor`
  adds its fixed sequence of instructions to that trace. The sequence ends with
  the SDP answer encoded in base 64.
- `Latency` (`ColorTrigger.run`). This is the colour-change loop. It runs
  over a finite sequence of steps, and each step is a reading, a
  WebDriverException or another exception. The loop updates `color` and
  appends the events it tells the observer to `events`.
- `Monitor` (`SystemMonitorManager`). This covers the decision whether the
  server is remote, the host sliced from the ws URI, the one-line commands sent
  to the remote monitor, the 600-attempt startup probe, and the choice between
  the remote and the local monitor in each operation.
- Helper modules: `Wrappers` (Option, Result); `Strings` (Java's
  `indexOf`, `lastIndexOf`, `contains`, and the decimal text of an
  integer); `Base64` (section 4 of RFC 4648).

Other behaviour the model shows:

- A listener looks its latch up when its event fires, not when it subscribes.
  So after a re-subscription, the old listener counts down the new latch
  (`Browser.TagSharesLatch`).
- The video tag is not part of the key. The same event on the local and the
  remote tag shares one latch.
- When the URI has no "//", `indexOf` gives -1, so the host slice starts at
  index 1. The model keeps this behaviour of the code.

`Monitor.ParseLine` reads a command line back. It is the reading that the line
protocol allows: the command word, then everything after the first space. The
remote `SystemMonitor` that really parses these lines is not part of this
model.

## Model

| member | source | states |
|---|---|---|
| Strings.IndexOf | kurento-integration-tests/kurento-test/src/main/java/org/kurento/test/monitor/SystemMonitorManager.java:81 | `indexOf`: -1 iff there is no occurrence; otherwise an occurrence with none before it |
| Strings.LastIndexOf | kurento-integration-tests/kurento-test/src/main/java/org/kurento/test/monitor/SystemMonitorManager.java:82 | `lastIndexOf`: -1 iff there is no occurrence; otherwise an occurrence with none after it |
| Strings.Contains | kurento-integration-tests/kurento-test/src/main/java/org/kurento/test/monitor/SystemMonitorManager.java:77-78 | `contains` holds iff some occurrence exists |
| Strings.DecimalRoundTrip | kurento-integration-tests/kurento-test/src/main/java/org/kurento/test/monitor/SystemMonitorManager.java:234 | the decimal text that concatenation gives an integer reads back as that integer |
| Strings.Decimal | kurento-integration-tests/kurento-test/src/main/java/org/kurento/test/monitor/SystemMonitorManager.java:234 | the text string concatenation gives an integer: at least one digit, no leading zero, and a leading '-' exactly for a negative value |
| Base64.Char | kurento-integration-tests/kurento-test/src/main/java/org/kurento/test/browser/WebRtcTestPage.java:339 | each alphabet character's value is the sextet it encodes |
| Base64.Encode | kurento-integration-tests/kurento-test/src/main/java/org/kurento/test/browser/WebRtcTestPage.java:339 | the encoding is 4 characters for every started group of 3 bytes |
| Base64.EncodeWellFormed | kurento-integration-tests/kurento-test/src/main/java/org/kurento/test/browser/WebRtcTestPage.java:339 | every encoding uses only alphabet characters and '=', and pads only in its last two places |
| Base64.EncodeZeroPadBits | kurento-integration-tests/kurento-test/src/main/java/org/kurento/test/browser/WebRtcTestPage.java:339 | the bits of a padded final group that no byte fills are written as zero, as section 3.5 of RFC 4648 requires: four zero bits before `==`, two before a single `=` |
| Base64.DecodeEncode | kurento-integration-tests/kurento-test/src/main/java/org/kurento/test/browser/WebRtcTestPage.java:339-342 | decoding the encoding gives back exactly the answer's bytes |
| Base64.EncodeIsLiteralSafe | kurento-integration-tests/kurento-test/src/main/java/org/kurento/test/browser/WebRtcTestPage.java:338-342 | the encoding holds no quote, backslash or line break, so it can sit in a script literal as it is |
| Browser.EventKey | kurento-integration-tests/kurento-test/src/main/java/org/kurento/test/browser/WebRtcTestPage.java:134 | the key is the browser id immediately followed by the event type, with no separator |
| Browser.SdpProcessorTrace | kurento-integration-tests/kurento-test/src/main/java/org/kurento/test/browser/WebRtcTestPage.java:312-342 | six to eight instructions, the offer read second to last and processSdpAnswer with the base 64 answer last |
| Browser.SdpProcessorTraceOrder | kurento-integration-tests/kurento-test/src/main/java/org/kurento/test/browser/WebRtcTestPage.java:309-344 | instruction order: test name, mode title, channel title, setCustomAudio iff there is audio, the channel script iff there is one, the mode script, the offer read, the answer last; the offer read is the only waiting instruction |
| Browser.SdpAnswerIsBase64 | kurento-integration-tests/kurento-test/src/main/java/org/kurento/test/browser/WebRtcTestPage.java:338-342 | the last instruction is processSdpAnswer with a quote-free literal that decodes to the answer's bytes |
| Browser.WebRtcTestPage.constructor | kurento-integration-tests/kurento-test/src/main/java/org/kurento/test/browser/WebRtcTestPage.java:53-54 | no subscriptions, no listeners, no instructions |
| Browser.WebRtcTestPage.AddEventListener | kurento-integration-tests/kurento-test/src/main/java/org/kurento/test/browser/WebRtcTestPage.java:180-204 | appends a listener thread for the key; latches and trace unchanged |
| Browser.WebRtcTestPage.SubscribeEventsToVideoTag | kurento-integration-tests/kurento-test/src/main/java/org/kurento/test/browser/WebRtcTestPage.java:128-142 | an unfired latch under browserId+eventType replaces any earlier entry, and a listener is added for that key |
| Browser.WebRtcTestPage.SubscribeEvents | kurento-integration-tests/kurento-test/src/main/java/org/kurento/test/browser/WebRtcTestPage.java:114-116 | subscribes on the remote ("video") tag |
| Browser.WebRtcTestPage.SubscribeLocalEvents | kurento-integration-tests/kurento-test/src/main/java/org/kurento/test/browser/WebRtcTestPage.java:121-123 | subscribes on the "local" tag |
| Browser.WebRtcTestPage.OnEvent | kurento-integration-tests/kurento-test/src/main/java/org/kurento/test/browser/WebRtcTestPage.java:136-140 | the listener's signal fires the latch stored under its key now; with no latch nothing changes; a fired latch stays fired |
| Browser.WebRtcTestPage.WaitForEvent | kurento-integration-tests/kurento-test/src/main/java/org/kurento/test/browser/WebRtcTestPage.java:147-174 | no entry: false and nothing removed; otherwise the fired flag is returned and the entry removed |
| Browser.WebRtcTestPage.StopWebRtc | kurento-integration-tests/kurento-test/src/main/java/org/kurento/test/browser/WebRtcTestPage.java:300-304 | issues stop() and a fresh KurentoTest, and removes every subscription |
| Browser.WebRtcTestPage.InitWebRtcSdpProcessor | kurento-integration-tests/kurento-test/src/main/java/org/kurento/test/browser/WebRtcTestPage.java:309-344 | appends exactly SdpProcessorTrace for the offer the page returned and the processor's answer in the platform charset |
| Browser.WaitConsumesSubscription | kurento-integration-tests/kurento-test/src/main/java/org/kurento/test/browser/WebRtcTestPage.java:152-173 | a signalled wait returns true; a second wait with no new subscribe returns false |
| Browser.UnsignalledAndStopped | kurento-integration-tests/kurento-test/src/main/java/org/kurento/test/browser/WebRtcTestPage.java:157-173 | an unsignalled wait returns false and removes the entry; after stopWebRtc a wait returns false |
| Browser.KeysCollide | kurento-integration-tests/kurento-test/src/main/java/org/kurento/test/browser/WebRtcTestPage.java:134 | ("ab","c") and ("a","bc") share one entry |
| Browser.TagSharesLatch | kurento-integration-tests/kurento-test/src/main/java/org/kurento/test/browser/WebRtcTestPage.java:134-139 | the local tag's listener fires the latch a later remote-tag subscribe stored under the same key |
| Browser.EverySubscriptionCanFire | kurento-integration-tests/kurento-test/src/main/java/org/kurento/test/browser/WebRtcTestPage.java:134-139 | on a page whose every latch has a listener, some listener holds any subscribed key and firing it counts that latch down |
| Latency.Advance | kurento-integration-tests/kurento-test/src/main/java/org/kurento/test/latency/ColorTrigger.java:53-74 | one iteration: the loop ends iff it had ended or the step is an exception other than WebDriverException; known events are kept and at most one is added, carrying the reading's time and colour |
| Latency.Detect | kurento-integration-tests/kurento-test/src/main/java/org/kurento/test/latency/ColorTrigger.java:51-75 | the loop over the steps: no more events than steps; with no event the tracked colour is still the start colour |
| Latency.DetectOneMore | kurento-integration-tests/kurento-test/src/main/java/org/kurento/test/latency/ColorTrigger.java:53-74 | one step: a reading of the tracked colour or a WebDriverException changes nothing; a new colour becomes tracked and emits one event with that colour and the reading's time; any other exception ends the loop |
| Latency.DetectAlternates | kurento-integration-tests/kurento-test/src/main/java/org/kurento/test/latency/ColorTrigger.java:56-67 | consecutive events have different colours; the first differs from the start; the final colour is the last event's, or the start if there is none |
| Latency.DetectEventsComeFromReadings | kurento-integration-tests/kurento-test/src/main/java/org/kurento/test/latency/ColorTrigger.java:57-67 | every event carries the trigger's tag and the colour and time of some reading; no more events than steps |
| Latency.DetectStopped | kurento-integration-tests/kurento-test/src/main/java/org/kurento/test/latency/ColorTrigger.java:72-74 | once the loop has ended, later steps change nothing |
| Latency.DetectStopsOnOtherFault | kurento-integration-tests/kurento-test/src/main/java/org/kurento/test/latency/ColorTrigger.java:69-74 | the loop ends iff some step threw an exception other than WebDriverException |
| Latency.ColorTrigger.constructor | kurento-integration-tests/kurento-test/src/main/java/org/kurento/test/latency/ColorTrigger.java:37-47 | the tracked colour starts black, no events |
| Latency.ColorTrigger.Run | kurento-integration-tests/kurento-test/src/main/java/org/kurento/test/latency/ColorTrigger.java:50-76 | the new colour and the appended events are those of Detect over the steps from the old colour |
| Monitor.IsKmsRemote | kurento-integration-tests/kurento-test/src/main/java/org/kurento/test/monitor/SystemMonitorManager.java:77-78 | remote iff the URI contains neither "localhost" nor "127.0.0.1" |
| Monitor.RemoteHost | kurento-integration-tests/kurento-test/src/main/java/org/kurento/test/monitor/SystemMonitorManager.java:81-82 | for the slice start (just after the first "//", or 1 when there is none) and the slice end (the last ':', or -1), the host is defined iff start <= end, and is then the text between them |
| Monitor.HostBoundsExist | kurento-integration-tests/kurento-test/src/main/java/org/kurento/test/monitor/SystemMonitorManager.java:81-82 | every URI has a slice start and a slice end, so the contract of RemoteHost always applies |
| Monitor.FirstDoubleSlash | kurento-integration-tests/kurento-test/src/main/java/org/kurento/test/monitor/SystemMonitorManager.java:81 | when the scheme has no '/', the first "//" is the one right after it |
| Monitor.RemoteHostOf | kurento-integration-tests/kurento-test/src/main/java/org/kurento/test/monitor/SystemMonitorManager.java:81-82 | for scheme//host:rest with no '/' in the scheme and no ':' in rest, the host is exactly host |
| Monitor.RemoteHostNeedsPort | kurento-integration-tests/kurento-test/src/main/java/org/kurento/test/monitor/SystemMonitorManager.java:81-82 | with no ':' after "//", the slice throws and the host is undefined |
| Monitor.LineRoundTrip | kurento-integration-tests/kurento-test/src/main/java/org/kurento/test/monitor/SystemMonitorManager.java:191-287 | every command line reads back as its request: command word, plus one space and the argument when there is one |
| Monitor.LineIsOneLine | kurento-integration-tests/kurento-test/src/main/java/org/kurento/test/monitor/SystemMonitorManager.java:265 | a command line has a line break iff it is writeResults and the folder has one |
| Monitor.Line | kurento-integration-tests/kurento-test/src/main/java/org/kurento/test/monitor/SystemMonitorManager.java:193-284 | the line starts with the command word and has a space iff the request has an argument, which then follows that space |
| Monitor.Probe | kurento-integration-tests/kurento-test/src/main/java/org/kurento/test/monitor/SystemMonitorManager.java:132-152 | at most 600 attempts; stops at the first success; NotAvailable iff all 600 are refused; available iff the first attempt not refused connects; failed iff it throws another IOException, at that attempt |
| Monitor.StartMonitorCommand | kurento-integration-tests/kurento-test/src/main/java/org/kurento/test/monitor/SystemMonitorManager.java:126-130 | runs SystemMonitor from the temporary folder with an argument that reads back as the monitor port, and writes its output to monitor.log in that folder |
| Monitor.SystemMonitorManager.constructor | kurento-integration-tests/kurento-test/src/main/java/org/kurento/test/monitor/SystemMonitorManager.java:91-95 | fields as given; the local monitor's only call is setSamplingTime |
| Monitor.SystemMonitorManager.Create | kurento-integration-tests/kurento-test/src/main/java/org/kurento/test/monitor/SystemMonitorManager.java:69-99 | local URI: no SSH; a host that cannot be sliced fails before any SSH action; remote: the start command is issued first on every path, then construction succeeds iff the first attempt not refused connects, fails with MonitorConnectFailed iff it throws another IOException, and with MonitorNotAvailable iff all 600 are refused |
| Monitor.SystemMonitorManager.SendMessage | kurento-integration-tests/kurento-test/src/main/java/org/kurento/test/monitor/SystemMonitorManager.java:256-280 | appends exactly one line to what was sent |
| Monitor.SystemMonitorManager.Start | kurento-integration-tests/kurento-test/src/main/java/org/kurento/test/monitor/SystemMonitorManager.java:191-197 | remote: sends "start"; local: calls the local monitor |
| Monitor.SystemMonitorManager.WriteResults | kurento-integration-tests/kurento-test/src/main/java/org/kurento/test/monitor/SystemMonitorManager.java:199-206 | remote: sends "writeResults <tmp>" and fetches the results; local: passes csvFile on |
| Monitor.SystemMonitorManager.Stop | kurento-integration-tests/kurento-test/src/main/java/org/kurento/test/monitor/SystemMonitorManager.java:208-214 | remote: sends "stop"; local: calls the local monitor |
| Monitor.SystemMonitorManager.IncrementNumClients | kurento-integration-tests/kurento-test/src/main/java/org/kurento/test/monitor/SystemMonitorManager.java:216-222 | remote: sends the line; local: calls the local monitor |
| Monitor.SystemMonitorManager.DecrementNumClients | kurento-integration-tests/kurento-test/src/main/java/org/kurento/test/monitor/SystemMonitorManager.java:224-230 | remote: sends the line; local: calls the local monitor |
| Monitor.SystemMonitorManager.AddCurrentLatency | kurento-integration-tests/kurento-test/src/main/java/org/kurento/test/monitor/SystemMonitorManager.java:232-238 | remote: sends "addCurrentLatency <n>"; local: calls the local monitor |
| Monitor.SystemMonitorManager.IncrementLatencyErrors | kurento-integration-tests/kurento-test/src/main/java/org/kurento/test/monitor/SystemMonitorManager.java:240-246 | remote: sends the line; local: calls the local monitor |
| Monitor.SystemMonitorManager.SetSamplingTime | kurento-integration-tests/kurento-test/src/main/java/org/kurento/test/monitor/SystemMonitorManager.java:248-254 | remote: sends "setSamplingTime <n>"; local: calls the local monitor |
| Monitor.SystemMonitorManager.Destroy | kurento-integration-tests/kurento-test/src/main/java/org/kurento/test/monitor/SystemMonitorManager.java:282-287 | remote: sends "destroy" and stops SSH; local: changes nothing |
| Monitor.SystemMonitorManager.AddJs | kurento-integration-tests/kurento-test/src/main/java/org/kurento/test/monitor/SystemMonitorManager.java:290-292 | always goes to the local monitor |

## Left out

- Threads and timing. The listener threads, `t.stop()`/`interrupt`, `teardownKurentoServices`, the timeout in `initWebRtc`, and the `Thread.sleep(100)` between probe attempts are concurrency or clock behaviour. The timed `await` is modelled as "return the fired flag once the timeout is over".
- `initWebRtc` as a whole (the ICE-candidate listener, the worker thread, `gatherCandidates`): endpoint calls and concurrency.
- Browser work done through Selenium is foreign calls: `setBrowser`, colour checks, `setColorCoordinates`, `close`, `start`, `stopPlay`, `reload`, `readConsole`, `getCurrentTime`, `compare` (floating point), `consoleLog` in the listener, and the script the listener thread runs.
- Audio recording in `waitForEvent` (`Recorder`): I/O.
- Browser.WebRtcTestPage.InitWebRtcSdpProcessor: page script failures are not modelled. Every instruction is taken to succeed, including the WebDriverException that `addTestName` and `appendStringToTitle` swallow. `String.getBytes` in the platform's default charset is the `charset` parameter.
- Latency.ColorTrigger.Run: the loop runs over a finite sequence of steps. The real `while (true)` has no end other than an exception. The observer is taken never to throw. `SimpleDateFormat` and the debug log are left out.
- SSH setup, copying the monitor classes with scp, and resolving classpath/jar paths are I/O. Only the command that starts the remote monitor, the `getFile` of `writeResults`, and `stop` on destroy are recorded. The name `OUTPUT_CSV`, which `getFile` appends to the folder, comes from `SystemMonitor`, which is not part of this model.
- `sendMessage` socket I/O: sending is taken to succeed, and the reply line is ignored, as the code ignores it.
- Property lookup (`getProperty`): the URI, port and rate are parameters. The temporary folder (made by `createTmpFolder` and read with `getTmpFolder`) is a parameter too.
- Browser.WebRtcTestPage.InitWebRtcSdpProcessor: an exception from the offer processor is not modelled. In the source it ends the method after the offer read, before processSdpAnswer is issued.
- Browser.WebRtcTestPage.StopWebRtc: always clears the subscriptions. In the source, a `stop();` script that throws skips the `clear()`.
- Browser.WebRtcTestPage.OnEvent: may be called for the same listener more than once, while a listener thread calls `onEvent` at most once. Repeated calls only re-fire the same latch or the one that replaced it, so this over-approximates what the threads can do.
- Monitor.SystemMonitorManager.Create: `issued` records the SSH start command on every remote path. The copying and folder creation before it are left out, and on failure nothing closes the connection, as in the source.
- KurentoTest.java (test-framework wiring and HTTP polling) is not part of this model.
