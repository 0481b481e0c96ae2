/** The colour-change detector that latency tests run against one video tag
    (org.kurento.test.latency.ColorTrigger). */
module Latency {

  type ColorComponent = x: int | 0 <= x < 256

  /** java.awt.Color; `equals` compares all four components. */
  datatype Color = Color(red: ColorComponent, green: ColorComponent, blue: ColorComponent, alpha: ColorComponent)

  /** Color.BLACK, the colour the trigger starts from. */
  const Black: Color := Color(0, 0, 0, 255)

  /** What one iteration of the loop observes. `Read` is a reading that did not
      throw: the colour `getCurrentColor` returned and the time in milliseconds
      that `getCurrentTime` returns (asked for only when the colour changed).
      `WebDriverFault` is a WebDriverException thrown by any of those browser
      reads; `OtherFault` is any other exception. */
  datatype Step = Read(color: Color, timeMillis: int) | WebDriverFault | OtherFault

  /** The event passed to the observer's `detectedColorChange`. */
  datatype ChangeColorEvent = ChangeColorEvent(videoTag: string, timeMillis: int, color: Color)

  /** The trigger's tracked colour, the events notified so far, and whether
      the loop has ended. */
  datatype Detection = Detection(color: Color, events: seq<ChangeColorEvent>, stopped: bool)

  /** One iteration of the loop. */
  function Advance(videoTag: string, d: Detection, step: Step): (d': Detection)
    ensures d'.stopped <==> d.stopped || step.OtherFault?
    ensures d.events <= d'.events && |d'.events| <= |d.events| + 1
    ensures |d'.events| == |d.events| + 1 ==>
      step.Read? && d'.events[|d.events|] == ChangeColorEvent(videoTag, step.timeMillis, step.color)
  {
    if d.stopped then d
    else
      match step
      case Read(c, t) =>
        if c == d.color then d
        else Detection(c, d.events + [ChangeColorEvent(videoTag, t, c)], false)
      case WebDriverFault => d
      case OtherFault => d.(stopped := true)
  }

  /** The state after the loop has seen `steps`, starting from `start`. */
  function Detect(videoTag: string, start: Color, steps: seq<Step>): (d: Detection)
    ensures |d.events| <= |steps|
    ensures d.events == [] ==> d.color == start
    decreases |steps|
  {
    if steps == [] then Detection(start, [], false)
    else Advance(videoTag, Detect(videoTag, start, steps[..|steps| - 1]), steps[|steps| - 1])
  }

  /** What one more step does: a reading of the tracked colour and a
      WebDriverException leave everything as it was, a reading of another
      colour makes it the tracked colour and notifies one event with that
      colour and the reading's time, any other exception ends the loop. */
  lemma DetectOneMore(videoTag: string, start: Color, steps: seq<Step>, step: Step)
    ensures var d, d' := Detect(videoTag, start, steps), Detect(videoTag, start, steps + [step]);
      && (d.stopped ==> d' == d)
      && (!d.stopped && step.Read? && step.color == d.color ==> d' == d)
      && (!d.stopped && step.WebDriverFault? ==> d' == d)
      && (!d.stopped && step.Read? && step.color != d.color ==>
            d' == Detection(step.color, d.events + [ChangeColorEvent(videoTag, step.timeMillis, step.color)], false))
      && (!d.stopped && step.OtherFault? ==> d' == d.(stopped := true))
  {
    assert (steps + [step])[..|steps|] == steps;
  }

  /** Consecutive events always carry different colours, the first differs
      from the starting colour, and the tracked colour is that of the last
      event, or the starting colour when there was none. */
  ghost predicate Alternating(start: Color, d: Detection) {
    && (d.events == [] ==> d.color == start)
    && (d.events != [] ==> d.color == d.events[|d.events| - 1].color && d.events[0].color != start)
    && forall k :: 0 < k < |d.events| ==> d.events[k - 1].color != d.events[k].color
  }

  lemma {:induction false} DetectAlternates(videoTag: string, start: Color, steps: seq<Step>)
    ensures Alternating(start, Detect(videoTag, start, steps))
    decreases |steps|
  {
    if steps != [] {
      DetectAlternates(videoTag, start, steps[..|steps| - 1]);
    }
  }

  /** Every event belongs to the trigger's video tag and carries the colour
      and the time of one of the readings. */
  lemma {:induction false} DetectEventsComeFromReadings(videoTag: string, start: Color, steps: seq<Step>)
    ensures |Detect(videoTag, start, steps).events| <= |steps|
    ensures forall e :: e in Detect(videoTag, start, steps).events ==>
      e.videoTag == videoTag && Read(e.color, e.timeMillis) in steps
    decreases |steps|
  {
    if steps != [] {
      var prefix := steps[..|steps| - 1];
      DetectEventsComeFromReadings(videoTag, start, prefix);
      assert forall s :: s in prefix ==> s in steps;
      assert steps[|steps| - 1] in steps;
    }
  }

  /** Once the loop has ended, further steps change nothing. */
  lemma {:induction false} DetectStopped(videoTag: string, start: Color, steps: seq<Step>, rest: seq<Step>)
    requires Detect(videoTag, start, steps).stopped
    ensures Detect(videoTag, start, steps + rest) == Detect(videoTag, start, steps)
    decreases |rest|
  {
    if rest == [] {
      assert steps + rest == steps;
    } else {
      var front := rest[..|rest| - 1];
      DetectStopped(videoTag, start, steps, front);
      assert (steps + rest)[..|steps + rest| - 1] == steps + front;
    }
  }

  /** The loop ends exactly when some step was a fault other than a
      WebDriverException. */
  lemma {:induction false} DetectStopsOnOtherFault(videoTag: string, start: Color, steps: seq<Step>)
    ensures Detect(videoTag, start, steps).stopped <==> OtherFault in steps
    decreases |steps|
  {
    if steps != [] {
      var prefix := steps[..|steps| - 1];
      DetectStopsOnOtherFault(videoTag, start, prefix);
      assert steps == prefix + [steps[|steps| - 1]];
    }
  }

  class ColorTrigger {
    const videoTag: string
    /** The last colour seen. */
    var color: Color
    /** The events notified to the observer, in order. */
    var events: seq<ChangeColorEvent>

    constructor (videoTag: string)
      ensures this.videoTag == videoTag && color == Black && events == []
    {
      this.videoTag := videoTag;
      color := Black;
      events := [];
    }

    /** The `run` loop over the steps the browser produces. The loop ends at
        the first `OtherFault`; if the steps run out first, the state is the
        one after the last of them. */
    method Run(steps: seq<Step>)
      modifies this
      ensures var d := Detect(videoTag, old(color), steps);
        color == d.color && events == old(events) + d.events
    {
      var i := 0;
      while i < |steps|
        invariant 0 <= i <= |steps|
        invariant var d := Detect(videoTag, old(color), steps[..i]);
          !d.stopped && color == d.color && events == old(events) + d.events
      {
        assert steps[..i + 1][..i] == steps[..i];
        match steps[i] {
          case OtherFault =>
            DetectStopped(videoTag, old(color), steps[..i + 1], steps[i + 1..]);
            assert steps[..i + 1] + steps[i + 1..] == steps;
            break;
          case WebDriverFault =>
          case Read(current, timeMillis) =>
            if current != color {
              color := current;
              events := events + [ChangeColorEvent(videoTag, timeMillis, color)];
            }
        }
        i := i + 1;
      }
      if i == |steps| {
        assert steps[..i] == steps;
      }
    }
  }
}
