/**
 * `LoadingProgress.Report` (identical in both namespaces): every subscriber
 * of `OnProgressChanged` is invoked with the reported value divided by 0.9,
 * so that a loading bar is full exactly when activation is allowed. The
 * reporter keeps no state; a report with no subscriber does nothing.
 */
module LoadingProgress {
  import opened SceneEngine

  /** `RATIO`. */
  const Ratio: real := 0.9

  /** The value a subscriber receives for a report of `value`. */
  function Scaled(value: real): (r: real)
    ensures r * Ratio == value
  {
    value / Ratio
  }

  /**
   * The invocations `Report(value)` makes: one per subscriber, in
   * subscription order, each carrying `value / 0.9`.
   */
  function Report(subscribers: seq<string>, value: real): (calls: seq<(string, real)>)
    ensures |calls| == |subscribers|
    ensures forall i :: 0 <= i < |subscribers| ==> calls[i].0 == subscribers[i] && calls[i].1 * Ratio == value
  {
    var shown := Scaled(value);
    seq(|subscribers|, i requires 0 <= i < |subscribers| => (subscribers[i], shown))
  }

  /** With no subscriber, a report has no effect. */
  lemma ReportWithoutSubscribers(value: real)
    ensures Report([], value) == []
  {
  }

  /** A report of 0.9 shows a full bar, a report of 0 an empty one. */
  lemma ReportEndpoints()
    ensures Scaled(0.9) == 1.0 && Scaled(0.0) == 0.0
  {
  }

  /** The scaling preserves order. */
  lemma ScaledMonotone(v: real, w: real)
    requires v <= w
    ensures Scaled(v) <= Scaled(w)
  {
  }

  /** The output is not clamped: anything above 0.9 is shown above 1. */
  lemma ScaledUnclamped(v: real)
    requires v > 0.9
    ensures Scaled(v) > 1.0
  {
  }

  // ------------------------------------------------ the loading screen's view

  /** A call the loading-screen player receives. */
  datatype ScreenEvent = Play(profile: Asset) | Shown(value: real) | Stop

  /** What the loading screen shows for each report of the polling loop. */
  function ShownProgress(reports: seq<real>): (shown: seq<ScreenEvent>)
    ensures |shown| == |reports|
    ensures forall i :: 0 <= i < |reports| ==> shown[i].Shown? && shown[i].value * Ratio == reports[i]
  {
    seq(|reports|, i requires 0 <= i < |reports| => Shown(Scaled(reports[i])))
  }

  /**
   * The loading screen's calls during one load of a group with loading
   * profile `profile`: none without a profile; otherwise it is played first,
   * then shows the progress, then is stopped once the load completed.
   */
  function ScreenCalls(profile: Option<Asset>, reports: seq<real>, completed: bool): (calls: seq<ScreenEvent>)
    ensures profile.None? ==> calls == []
    ensures profile.Some? ==> |calls| == |reports| + 1 + (if completed then 1 else 0) && calls[0] == Play(profile.value)
    ensures profile.Some? ==> forall i :: 0 <= i < |reports| ==> calls[i + 1].Shown? && calls[i + 1].value * Ratio == reports[i]
    ensures profile.Some? && completed ==> calls[|calls| - 1] == Stop
  {
    if profile.None? then []
    else [Play(profile.value)] + ShownProgress(reports) + (if completed then [Stop] else [])
  }

  lemma AppendAssociative<T>(a: seq<T>, b: seq<T>, c: seq<T>)
    ensures (a + b) + c == a + (b + c)
  {
  }

  /** The loading screen's calls split at the group loader's run: the start, then the rest. */
  lemma ScreenCallsSplit(profile: Option<Asset>, reports: seq<real>, completed: bool)
    ensures ScreenCalls(profile, reports, completed)
      == (if profile.Some? then [Play(profile.value)] else [])
         + (if profile.Some? then ShownProgress(reports) + (if completed then [Stop] else []) else [])
  {
  }
}
