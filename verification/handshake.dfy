/**
 * The ready-for-input handshake with the Nuke process and the stdout handlers'
 * values. `WaitForProcess` writes a print statement to Nuke's stdin and polls until
 * the `READY FOR INPUT` handler has seen its echo, failing the render when Nuke has
 * exited, on a blocking popup or on a cancel request. The polls are an abstract
 * sequence of observations.
 */
module Handshake {
  import opened Wrappers
  import opened Text

  /** The stdout pattern whose handler sets the ready flag. */
  const ReadyMarker := "READY FOR INPUT"

  const CancelMessage := "Received cancel task command"

  const ContinueOnErrorWarning := "Skipping error detection as 'Continue On Error' is enabled."

  /** `ReadyForInputCommand`: a Python statement that makes Nuke print the ready marker. */
  function ReadyForInputCommand(): (c: string)
    ensures |c| == 28
    ensures c[..8] == "print( \"" && c[8..23] == ReadyMarker && c[23..] == "\\n\" )"
  {
    var open := "print( \"";
    var close := "\\n\" )";
    var c := open + ReadyMarker + close;
    assert c == "print( \"READY FOR INPUT\\n\" )";
    assert |open| == 8 && |ReadyMarker| == 15 && |close| == 5;
    assert c[..8] == open && c[8..23] == ReadyMarker && c[23..] == close;
    c
  }

  /**
   * What one pass of the poll loop observes, in the order the pass looks: the failure
   * message `VerifyMonitoredManagedProcess` raises when Nuke has exited ("" while it
   * runs), whether the stdout flush ran the ready handler, the message of a blocking
   * popup ("" when none) and the cancel flag.
   */
  datatype Poll = Poll(exitMessage: string, readyLineSeen: bool, popupMessage: string, canceled: bool)

  /**
   * How `WaitForProcess` ends: ready after that many passes of the loop, failed with
   * a render-failure message, or still waiting when the observations run out.
   */
  datatype WaitOutcome = Ready(passes: nat) | Failed(message: string) | StillWaiting

  /**
   * The poll loop: the flag is checked before every pass; a pass first fails if Nuke
   * has exited, then flushes stdout (which may set the flag), then fails on a popup
   * before it looks at the cancel flag.
   */
  function Wait(ready: bool, polls: seq<Poll>): WaitOutcome
    decreases |polls|
  {
    if ready then Ready(0)
    else if |polls| == 0 then StillWaiting
    else if polls[0].exitMessage != "" then Failed(polls[0].exitMessage)
    else if polls[0].popupMessage != "" then Failed(polls[0].popupMessage)
    else if polls[0].canceled then Failed(CancelMessage)
    else
      match Wait(polls[0].readyLineSeen, polls[1..])
      case Ready(k) => Ready(k + 1)
      case other => other
  }

  /** Pass `j` goes by without failing the render. */
  predicate Quiet(p: Poll) {
    p.exitMessage == "" && p.popupMessage == "" && !p.canceled
  }

  /** The message a pass that is not quiet fails with: Nuke's exit, else the popup, else the cancel. */
  function FailureMessage(p: Poll): string {
    if p.exitMessage != "" then p.exitMessage
    else if p.popupMessage != "" then p.popupMessage
    else CancelMessage
  }

  /** The first `k` passes are quiet and only the last of them sees the ready line. */
  predicate ReadyAfter(polls: seq<Poll>, k: nat) {
    && 1 <= k <= |polls|
    && (forall j :: 0 <= j < k ==> Quiet(polls[j]))
    && (forall j :: 0 <= j < k - 1 ==> !polls[j].readyLineSeen)
    && polls[k - 1].readyLineSeen
  }

  // ---------------------------------------------------------------------------
  // Properties
  // ---------------------------------------------------------------------------

  /** A popup in the same pass as a cancel request wins: its message is the failure. */
  lemma PopupBeforeCancel(polls: seq<Poll>)
    requires |polls| > 0 && polls[0].exitMessage == "" && polls[0].popupMessage != "" && polls[0].canceled
    ensures Wait(false, polls) == Failed(polls[0].popupMessage)
  {
  }

  /**
   * A pass on an exited Nuke fails with the exit message, whatever popup, cancel
   * request or ready line the same pass would have seen.
   */
  lemma ExitBeforeEverything(polls: seq<Poll>)
    requires |polls| > 0 && polls[0].exitMessage != ""
    ensures Wait(false, polls) == Failed(polls[0].exitMessage)
  {
  }

  /**
   * The loop, started with the flag down, ends ready after `k` passes exactly when
   * the first `k` passes are quiet and the ready line is first seen in pass `k`.
   */
  lemma {:induction false} ReadyExactly(polls: seq<Poll>, k: nat)
    ensures Wait(false, polls) == Ready(k) <==> ReadyAfter(polls, k)
    decreases |polls|
  {
    if |polls| > 0 && Quiet(polls[0]) {
      var rest := polls[1..];
      if polls[0].readyLineSeen {
        assert Wait(false, polls) == Ready(1);
      } else if k >= 1 {
        ReadyExactly(rest, k - 1);
        if ReadyAfter(polls, k) {
          assert k >= 2;
          forall j | 0 <= j < k - 1 ensures Quiet(rest[j]) && (j < k - 2 ==> !rest[j].readyLineSeen) {
            assert rest[j] == polls[j + 1];
          }
          assert rest[k - 2] == polls[k - 1];
        }
        if ReadyAfter(rest, k - 1) {
          forall j | 0 <= j < k ensures Quiet(polls[j]) && (j < k - 1 ==> !polls[j].readyLineSeen) {
            if j > 0 {
              assert polls[j] == rest[j - 1];
            }
          }
          assert polls[k - 1] == rest[k - 2];
        }
      }
    }
  }

  /** A failure is Nuke's exit message, a popup's message or the cancel message, raised by a pass before any ready line. */
  lemma {:induction false} FailureCause(polls: seq<Poll>, message: string)
    requires Wait(false, polls) == Failed(message)
    ensures exists j :: 0 <= j < |polls| && Failing(polls, j, message)
    decreases |polls|
  {
    if Quiet(polls[0]) {
      assert !polls[0].readyLineSeen;
      FailureCause(polls[1..], message);
      var j :| 0 <= j < |polls[1..]| && Failing(polls[1..], j, message);
      assert Failing(polls, j + 1, message) by {
        forall i | 0 <= i < j + 1 ensures Quiet(polls[i]) && !polls[i].readyLineSeen {
          if i > 0 {
            assert polls[i] == polls[1..][i - 1];
          }
        }
      }
    } else {
      assert Failing(polls, 0, message);
    }
  }

  /** Conversely, a first non-quiet pass before any ready line fails the wait with its message. */
  lemma {:induction false} FailingFails(polls: seq<Poll>, j: nat, message: string)
    requires j < |polls| && Failing(polls, j, message)
    ensures Wait(false, polls) == Failed(message)
    decreases |polls|
  {
    if j > 0 {
      var rest := polls[1..];
      assert Quiet(polls[0]) && !polls[0].readyLineSeen;
      assert Failing(rest, j - 1, message) by {
        forall i | 0 <= i < j - 1 ensures Quiet(rest[i]) && !rest[i].readyLineSeen {
          assert rest[i] == polls[i + 1];
        }
        assert rest[j - 1] == polls[j];
      }
      FailingFails(rest, j - 1, message);
    }
  }

  /** Pass `j` is the first one that is not quiet, it fails with `message`, and no ready line came before it. */
  predicate Failing(polls: seq<Poll>, j: nat, message: string)
    requires j < |polls|
  {
    && (forall i :: 0 <= i < j ==> Quiet(polls[i]) && !polls[i].readyLineSeen)
    && !Quiet(polls[j])
    && message == FailureMessage(polls[j])
  }

  // ---------------------------------------------------------------------------
  // Progress
  // ---------------------------------------------------------------------------

  /**
   * `HandleProgress`'s percentage for groups `current of total` of
   * `Frame N (current of total)`: none when total is 0.
   */
  function ProgressPercent(current: nat, total: nat): (p: Option<real>)
    ensures p.Some? <==> total != 0
    ensures p.Some? ==> p.value * total as real == current as real * 100.0
  {
    if total != 0 then Some((current as real / total as real) * 100.0) else None
  }

  /** The progress a frame line reports, read from the digits of its two groups. */
  function FrameProgress(currentGroup: string, totalGroup: string): Option<real>
    requires IsDigits(currentGroup) && IsDigits(totalGroup)
  {
    ProgressPercent(DecimalValue(currentGroup), DecimalValue(totalGroup))
  }

  /** Frame 10 of 40 is 25 percent; a total of 0 sets no progress. */
  lemma ProgressExamples()
    ensures ProgressPercent(10, 40) == Some(25.0)
    ensures ProgressPercent(40, 40) == Some(100.0)
    ensures ProgressPercent(1, 0) == None
  {
  }

  /** The printed group of `str(n)` reads back as `n`, so the percentage is of the printed numbers. */
  lemma FrameProgressOfPrinted(current: nat, total: nat)
    ensures FrameProgress(NatToString(current), NatToString(total)) == ProgressPercent(current, total)
  {
    DecimalRoundTrip(current);
    DecimalRoundTrip(total);
  }
}
