/** The manual gate (`waitForManualAction`): a pause until a person has done something in the
    browser. The action picks one release mode: a selector becoming visible, then a text
    appearing on the page, then a `.continue` marker file in the working directory that is
    polled against the clock. The page waits are calls into the browser; the polling loop is
    modelled step by step, with the clock and the file system as sequences of readings. */
module ManualGate {
  import opened Wrappers
  import opened Text
  import opened Actions

  const DefaultMessage: string := "Please complete the manual action"

  /** Five minutes, in milliseconds. */
  const DefaultTimeout: int := 300000

  /** `action.message || action.description || 'Please complete the manual action'`. */
  function GateMessage(message: Option<string>, description: Option<string>): (r: string)
    ensures r != ""
    ensures Truthy(message) ==> r == message.value
    ensures !Truthy(message) ==> r == (if Truthy(description) then description.value else DefaultMessage)
  {
    if Truthy(message) then message.value
    else if Truthy(description) then description.value
    else DefaultMessage
  }

  /** `action.timeout || 300000`: an absent timeout and a zero timeout both fall back to five
      minutes; any other number, negative ones included, is used as it is. */
  function GateTimeout(timeout: Option<int>): (r: int)
    ensures r != 0
    ensures r == DefaultTimeout <==> timeout.None? || timeout.value in {0, DefaultTimeout}
  {
    if timeout.Some? && timeout.value != 0 then timeout.value else DefaultTimeout
  }

  /** How the gate is released. */
  datatype Release =
    /** `page.waitForSelector(selector, {timeout, state: 'visible'})`. */
    | SelectorVisible(selector: string, timeout: int, visible: bool)
    /** `page.waitForFunction(<body text includes text>, text, {timeout})`. */
    | TextShown(text: string, timeout: int)
    /** The `.continue` marker file, polled until `timeout` has passed. */
    | MarkerFile(timeout: int)

  /** The release mode the handler chooses for a manual-gate action. */
  function Plan(a: Action): Release
    requires a.WaitForManualActionAction?
  {
    var timeout := GateTimeout(a.gateTimeout);
    if Truthy(a.continueSelector) then SelectorVisible(a.continueSelector.value, timeout, true)
    else if Truthy(a.continueText) then TextShown(a.continueText.value, timeout)
    else MarkerFile(timeout)
  }

  /** The mode priority: a selector wins over a text, a text over the marker file, and every
      mode waits for the same timeout. */
  lemma PlanPriority(a: Action)
    requires a.WaitForManualActionAction?
    ensures Plan(a).timeout == GateTimeout(a.gateTimeout)
    ensures Plan(a).SelectorVisible? <==> Truthy(a.continueSelector)
    ensures Plan(a).SelectorVisible? ==> Plan(a).selector == a.continueSelector.value && Plan(a).visible
    ensures Plan(a).TextShown? <==> !Truthy(a.continueSelector) && Truthy(a.continueText)
    ensures Plan(a).TextShown? ==> Plan(a).text == a.continueText.value
    ensures Plan(a).MarkerFile? <==> !Truthy(a.continueSelector) && !Truthy(a.continueText)
  {
  }

  /** The calls made for the actions of the handler's unit tests. */
  lemma PlanExamples()
    ensures Plan(WaitForManualActionAction(Base(Some("Complete Google login"), None, None), None,
                 Some("#login-success"), None, None, None, None))
         == SelectorVisible("#login-success", 300000, true)
    ensures Plan(WaitForManualActionAction(Base(Some("Wait for login success message"), None, None), None,
                 None, Some("Welcome back!"), None, None, None))
         == TextShown("Welcome back!", 300000)
    ensures Plan(WaitForManualActionAction(Base(Some("Wait 1 minute for manual action"), None, None), None,
                 Some("#complete"), None, Some(60000), None, None))
         == SelectorVisible("#complete", 60000, true)
  {
  }

  // The marker-file loop

  /** What one look for the marker finds: no file; a file that was read and then deleted; or
      a file that was read but whose deletion threw, which the surrounding `catch` handles
      exactly like a missing file. */
  datatype Probe = Absent | Removed | RemoveFailed

  /** Milliseconds between the first clock reading and reading `k`. */
  function Elapsed(clock: seq<int>, k: nat): int
    requires k < |clock|
  {
    clock[k] - clock[0]
  }

  /** Round `j` found time left and no marker it could remove, so the loop went on. Reading 0
      is the start time; round `j` reads the clock at `j + 1`. */
  predicate KeptPolling(clock: seq<int>, probes: seq<Probe>, timeout: int, j: nat)
    requires j + 1 < |clock| && j < |probes|
  {
    Elapsed(clock, j + 1) < timeout && probes[j] != Removed
  }

  /** The loop ends in round `polls`: every earlier round kept polling, and round `polls`
      either found the time up or removed the marker. */
  predicate StopsAt(clock: seq<int>, probes: seq<Probe>, timeout: int, polls: nat)
  {
    polls + 2 < |clock| && polls < |probes|
    && (forall j :: 0 <= j < polls ==> KeptPolling(clock, probes, timeout, j))
    && !KeptPolling(clock, probes, timeout, polls)
  }

  /** The marker was found and deleted in the last round (before the loop's deadline). */
  predicate Released(clock: seq<int>, probes: seq<Probe>, timeout: int, polls: nat)
    requires polls + 1 < |clock| && polls < |probes|
  {
    Elapsed(clock, polls + 1) < timeout && probes[polls] == Removed
  }

  /** `${timeout / 1000}` in JavaScript: the number of seconds, with a fractional part written
      only when there is one, without trailing zeros. */
  function SecondsText(timeout: int): string
  {
    if timeout % 1000 == 0 then IntToString(timeout / 1000)
    else
      var magnitude: nat := if timeout < 0 then -timeout else timeout;
      (if timeout < 0 then "-" else "") + NatToString(magnitude / 1000) + "." + Millis(magnitude % 1000)
  }

  /** The digits after the decimal point of `ms / 1000`, for `0 < ms < 1000`. */
  function Millis(ms: nat): (r: string)
    requires 0 < ms < 1000
    ensures 1 <= |r| <= 3 && r[|r| - 1] != '0'
  {
    var d1, d2, d3 := DigitChar(ms / 100), DigitChar(ms / 10 % 10), DigitChar(ms % 10);
    if ms % 100 == 0 then [d1]
    else if ms % 10 == 0 then [d1, d2]
    else [d1, d2, d3]
  }

  function TimedOutMessage(timeout: int): string
  {
    "Manual action timed out after " + SecondsText(timeout) + " seconds"
  }

  /** The check after the loop reads the clock once more: time up means an error, whatever the
      loop found. */
  function Verdict(clock: seq<int>, timeout: int, polls: nat): Outcome<string>
    requires polls + 2 < |clock|
  {
    if Elapsed(clock, polls + 2) >= timeout then Fail(TimedOutMessage(timeout)) else Pass
  }

  /** The marker-file mode: `clock` holds the successive `Date.now()` readings and `probes`
      the successive looks for the marker. `deadline` is a round by which the time is up, so
      that the loop ends. Returns the outcome, the number of full rounds before the last, and
      whether the marker was removed. */
  method PollMarker(timeout: int, clock: seq<int>, probes: seq<Probe>, ghost deadline: nat)
    returns (outcome: Outcome<string>, polls: nat, released: bool)
    requires deadline + 2 < |clock| && deadline < |probes|
    requires Elapsed(clock, deadline + 1) >= timeout
    ensures StopsAt(clock, probes, timeout, polls) && polls <= deadline
    ensures released == Released(clock, probes, timeout, polls)
    ensures outcome == Verdict(clock, timeout, polls)
  {
    var start := clock[0];
    polls := 0;
    released := false;
    while clock[polls + 1] - start < timeout
      invariant polls <= deadline && !released
      invariant forall j :: 0 <= j < polls ==> KeptPolling(clock, probes, timeout, j)
      decreases deadline - polls
    {
      assert Elapsed(clock, polls + 1) < timeout;
      if probes[polls] == Removed {
        released := true;
        break;
      }
      polls := polls + 1;
    }
    if clock[polls + 2] - start >= timeout {
      outcome := Fail(TimedOutMessage(timeout));
    } else {
      outcome := Pass;
    }
  }

  /** The round the loop stops at is determined by the readings. */
  lemma StopsAtUnique(clock: seq<int>, probes: seq<Probe>, timeout: int, p: nat, q: nat)
    requires StopsAt(clock, probes, timeout, p) && StopsAt(clock, probes, timeout, q)
    ensures p == q
  {
  }

  /** A clock that never goes back. */
  predicate Monotone(clock: seq<int>)
  {
    forall i, j :: 0 <= i <= j < |clock| ==> clock[i] <= clock[j]
  }

  /** With a clock that never goes back, the gate opens only by removing the marker, and never
      after the time is up. */
  lemma PassNeedsMarker(clock: seq<int>, probes: seq<Probe>, timeout: int, polls: nat)
    requires Monotone(clock) && StopsAt(clock, probes, timeout, polls)
    requires Verdict(clock, timeout, polls).Pass?
    ensures Released(clock, probes, timeout, polls)
    ensures forall j :: 0 <= j <= polls + 2 ==> Elapsed(clock, j) < timeout
  {
    assert clock[polls + 1] <= clock[polls + 2];
    assert !KeptPolling(clock, probes, timeout, polls);
    forall j | 0 <= j <= polls + 2
      ensures Elapsed(clock, j) < timeout
    {
      assert clock[j] <= clock[polls + 2];
    }
  }

  /** Without a marker, the gate always fails with the timeout message. */
  lemma NoMarkerTimesOut(clock: seq<int>, probes: seq<Probe>, timeout: int, polls: nat)
    requires Monotone(clock) && StopsAt(clock, probes, timeout, polls)
    requires forall j :: 0 <= j < |probes| ==> probes[j] != Removed
    ensures Verdict(clock, timeout, polls) == Fail(TimedOutMessage(timeout))
  {
    assert probes[polls] != Removed;
    assert !KeptPolling(clock, probes, timeout, polls);
    assert clock[polls + 1] <= clock[polls + 2];
  }

  /** A marker removed in the last millisecond before the deadline still ends in the timeout
      error, because the check after the loop reads the clock again: the file is gone and the
      action fails. */
  lemma RemovedAtDeadlineStillFails()
    ensures StopsAt([0, 999, 1000], [Removed], 1000, 0)
    ensures Released([0, 999, 1000], [Removed], 1000, 0)
    ensures Verdict([0, 999, 1000], 1000, 0) == Fail(TimedOutMessage(1000))
  {
  }

  /** A marker whose deletion throws is not a release: a loop that ends on such a look ended
      because the time was up. */
  lemma FailedRemovalIsNoRelease(clock: seq<int>, probes: seq<Probe>, timeout: int, polls: nat)
    requires StopsAt(clock, probes, timeout, polls)
    requires probes[polls] == RemoveFailed
    ensures !Released(clock, probes, timeout, polls) && Elapsed(clock, polls + 1) >= timeout
  {
  }

  /** Whole seconds are written as an integer. */
  lemma WholeSeconds(k: int)
    ensures SecondsText(1000 * k) == IntToString(k)
  {
    assert (1000 * k) % 1000 == 0 && (1000 * k) / 1000 == k;
  }

  /** The default timeout is reported as 300 seconds; a fractional one keeps its decimals. */
  lemma TimedOutMessages()
    ensures TimedOutMessage(DefaultTimeout) == "Manual action timed out after 300 seconds"
    ensures SecondsText(1500) == "1.5"
  {
    WholeSeconds(300);
    assert NatToString(300) == "300" by {
      assert NatToString(3) == "3";
      assert NatToString(30) == NatToString(3) + "0";
    }
    assert NatToString(1) == "1";
  }
}
