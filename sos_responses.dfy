/** The emergency SOS button of the landing app: pressing it activates the
    button, starts a half-second interval that adds simulated donor responses
    up to a cap of 247, and a ten-second timeout that deactivates it and
    reports a count. The random increments are parameters. */
module SosResponses {
  import opened Common

  const Cap := 247

  /** The count after one interval firing that adds `k`, and whether the
      interval keeps running. */
  function Step(count: int, k: int): (r: (int, bool))
    requires 1 <= k <= 5
    ensures r.0 == if count + k >= Cap then Cap else count + k
    ensures r.1 <==> count + k < Cap
  {
    var next := count + k;
    if next >= Cap then (Cap, false) else (next, true)
  }

  predicate ValidDraws(ks: seq<int>) {
    forall i :: 0 <= i < |ks| ==> 1 <= ks[i] <= 5
  }

  /** The count after the interval fires with increments `ks`, from `count`;
      once the cap stops the interval, later increments are not applied. */
  function Run(count: int, ks: seq<int>): (r: int)
    requires 0 <= count <= Cap && ValidDraws(ks)
    ensures count <= r <= Cap
    ensures r <= count + 5 * |ks|
    ensures ks != [] && count < Cap ==> count < r
    decreases |ks|
  {
    if ks == [] || count == Cap then count
    else Run(Step(count, ks[0]).0, ks[1..])
  }

  /** Each firing adds at least one, so 247 firings from any count reach the cap. */
  lemma {:induction false} RunReachesCap(count: int, ks: seq<int>)
    requires 0 <= count <= Cap && ValidDraws(ks) && |ks| >= Cap - count
    ensures Run(count, ks) == Cap
    decreases |ks|
  {
    if ks != [] && count < Cap {
      RunReachesCap(Step(count, ks[0]).0, ks[1..]);
    }
  }

  /** The timeout fires after ten seconds, so the half-second interval fires
      at most 20 times and the count stays at or below 100: the cap is never
      reached in practice. */
  lemma TimeoutComesFirst(ks: seq<int>)
    requires ValidDraws(ks) && |ks| <= 20
    ensures Run(0, ks) <= 100 < Cap
  {
  }

  /** The text of the completion toast. */
  function CompletionMessage(count: int): string {
    IntToString(count) + " donors have been notified. Help is on the way!"
  }

  /** The description of the toast shown on every activation. */
  const ActivationMessage := "Broadcasting to all compatible donors within 10km..."

  class SosResponder {
    var sosActive: bool
    var responseCount: int
    var intervalRunning: bool
    var timeoutPending: bool
    /** The count the pending timeout's message will report: the value the
        press handler's closure saw. */
    var capturedCount: int
    /** Descriptions of the toasts shown so far, activations and completions. */
    var messages: seq<string>

    ghost predicate Valid()
      reads this
    {
      && 0 <= responseCount <= Cap
      && (sosActive <==> timeoutPending)
      && (intervalRunning ==> sosActive && responseCount < Cap)
    }

    constructor ()
      ensures Valid()
      ensures !sosActive && responseCount == 0 && !intervalRunning && !timeoutPending && messages == []
    {
      sosActive := false;
      responseCount := 0;
      intervalRunning := false;
      timeoutPending := false;
      capturedCount := 0;
      messages := [];
    }

    /** `handleSOS`: ignored while active; otherwise activates, resets the
        count to 0, shows the activation toast and starts the interval and
        the timeout. The timeout's message will use the count as it was
        before the reset. */
    method Press()
      requires Valid()
      modifies this
      ensures Valid()
      ensures old(sosActive) ==>
        responseCount == old(responseCount) && intervalRunning == old(intervalRunning)
        && capturedCount == old(capturedCount) && sosActive && timeoutPending
      ensures !old(sosActive) ==>
        && sosActive && responseCount == 0 && intervalRunning && timeoutPending
        && capturedCount == old(responseCount)
      ensures messages == old(messages) + (if old(sosActive) then [] else [ActivationMessage])
    {
      if sosActive {
        return;
      }
      capturedCount := responseCount;
      sosActive := true;
      responseCount := 0;
      messages := messages + [ActivationMessage];
      intervalRunning := true;
      timeoutPending := true;
    }

    /** One firing of the interval, adding `k` responses (1 to 5): the count
        never goes down and stops at 247, where the interval clears itself. */
    method Tick(k: int)
      requires Valid() && intervalRunning && 1 <= k <= 5
      modifies this
      ensures Valid()
      ensures old(responseCount) < responseCount <= Cap
      ensures (responseCount, intervalRunning) == Step(old(responseCount), k)
      ensures sosActive == old(sosActive) && timeoutPending == old(timeoutPending)
      ensures capturedCount == old(capturedCount) && messages == old(messages)
    {
      var next := responseCount + k;
      if next >= Cap {
        intervalRunning := false;
        responseCount := Cap;
      } else {
        responseCount := next;
      }
    }

    /** The ten-second timeout: deactivates, clears the interval and shows
        the completion toast with the captured count. */
    method Timeout()
      requires Valid() && timeoutPending
      modifies this
      ensures Valid()
      ensures !sosActive && !intervalRunning && !timeoutPending
      ensures messages == old(messages) + [CompletionMessage(old(capturedCount))]
      ensures responseCount == old(responseCount) && capturedCount == old(capturedCount)
    {
      sosActive := false;
      intervalRunning := false;
      timeoutPending := false;
      messages := messages + [CompletionMessage(capturedCount)];
    }
  }

  /** The first activation reports 0 donors, whatever responses came in. */
  method FirstActivationReportsZero(k1: int, k2: int) returns (toasts: seq<string>, finalCount: int)
    requires 1 <= k1 <= 5 && 1 <= k2 <= 5
    ensures toasts == [ActivationMessage, CompletionMessage(0)] && finalCount == k1 + k2
  {
    var b := new SosResponder();
    b.Press();
    b.Tick(k1);
    b.Tick(k2);
    b.Timeout();
    toasts := b.messages;
    finalCount := b.responseCount;
  }

  /** A second activation reports the count the first one ended with, not
      its own. */
  method SecondActivationReportsPrevious(k1: int, k2: int) returns (toasts: seq<string>, finalCount: int)
    requires 1 <= k1 <= 5 && 1 <= k2 <= 5
    ensures toasts == [ActivationMessage, CompletionMessage(0), ActivationMessage, CompletionMessage(k1)]
    ensures finalCount == k2
  {
    var b := new SosResponder();
    b.Press();
    b.Tick(k1);
    b.Timeout();
    b.Press();
    b.Tick(k2);
    b.Timeout();
    toasts := b.messages;
    finalCount := b.responseCount;
  }
}
