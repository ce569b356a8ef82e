/**
 * The "open a town portal" step: a throttled Run that presses the portal key
 * and right-clicks, and a Status that reports completion once a portal object
 * is visible and the settle delay since the last fired Run has passed.
 * Time is a millisecond clock `now`. A step that never fired has no lastRun:
 * Go keeps the zero time.Time there, and any delay since it has long passed.
 */
module OpenPortal {
  import opened Common

  datatype StepStatus = NotStarted | InProgress | Completed | Failed

  /** An object of the game snapshot; `isPortal` is what Object.IsPortal() answers. */
  datatype GameObject = GameObject(name: string, isPortal: bool)

  /** Run does not fire again sooner than this after the last fired Run. */
  const ThrottleMs: nat := 2000
  /** Status trusts a visible portal only this long after the last fired Run. */
  const SettleMs: nat := 1000

  predicate HasPortal(objects: seq<GameObject>) {
    exists i :: 0 <= i < |objects| && objects[i].isPortal
  }

  /** Whether more than `ms` passed at `now` since the last fired Run (always, when none fired). */
  predicate LongerThan(lastRun: Option<nat>, now: nat, ms: nat) {
    lastRun.None? || now - lastRun.value > ms
  }

  /** What one Status call reports, from the step's fields and the snapshot. */
  function Observe(status: StepStatus, lastRun: Option<nat>, now: nat, objects: seq<GameObject>): (r: StepStatus)
    ensures r == Completed || r == InProgress
    ensures r == Completed <==> status == Completed || ((lastRun == None || now - lastRun.value > SettleMs) && HasPortal(objects))
  {
    if status == Completed then Completed
    else if LongerThan(lastRun, now, SettleMs) && HasPortal(objects) then Completed
    else InProgress
  }

  /** Whether a Run at `now` fires: no Run fired before, or the last one is two seconds old. */
  predicate Fires(lastRun: Option<nat>, now: nat) {
    lastRun.None? || !(now - lastRun.value < ThrottleMs)
  }

  /** The input of one fired Run: the portal key, then a right click at (300, 300). */
  function PortalInput(tpKB: string): seq<InputEvent> {
    [PressKey(Ascii(tpKB)), Click(RightButton, 300, 300)]
  }

  class OpenPortalStep {
    var status: StepStatus
    var lastRun: Option<nat>
    const tpKB: string

    constructor (tpKB: string)
      ensures status == NotStarted && lastRun == None && this.tpKB == tpKB
    {
      status := NotStarted;
      lastRun := None;
      this.tpKB := tpKB;
    }

    /** Poll the step; it moves to Completed at most once and never leaves it. */
    method Status(now: nat, objects: seq<GameObject>) returns (st: StepStatus)
      modifies this`status
      ensures st == Observe(old(status), lastRun, now, objects)
      ensures status == (if st == Completed then Completed else old(status))
    {
      if status == Completed {
        return Completed;
      }
      if lastRun.None? || now - lastRun.value > SettleMs {
        for i := 0 to |objects|
          invariant forall j :: 0 <= j < i ==> !objects[j].isPortal
        {
          if objects[i].isPortal {
            status := Completed;
            return Completed;
          }
        }
      }
      return InProgress;
    }

    /** Open a portal, unless the last fired Run was less than two seconds ago. */
    method Run(now: nat, hid: Hid) returns (err: Option<string>)
      modifies this`lastRun, hid
      ensures err == None
      ensures Fires(old(lastRun), now) ==> hid.trace == old(hid.trace) + PortalInput(tpKB) && lastRun == Some(now)
      ensures !Fires(old(lastRun), now) ==> hid.trace == old(hid.trace) && lastRun == old(lastRun)
    {
      if lastRun.Some? && now - lastRun.value < ThrottleMs {
        return None;
      }
      hid.PressKey(Ascii(tpKB));
      hid.Click(RightButton, 300, 300);
      lastRun := Some(now);
      return None;
    }
  }

  // ---------------------------------------------------------------------------
  // A sequence of calls on one step, as the methods above define them.

  datatype Call = RunAt(now: nat) | StatusAt(now: nat, objects: seq<GameObject>)

  /**
   * The step's fields, all input issued, every Status report and the times of
   * the Runs that fired.
   */
  datatype History = History(status: StepStatus, lastRun: Option<nat>, input: seq<InputEvent>,
                             reports: seq<StepStatus>, fired: seq<nat>)

  function Apply(h: History, tpKB: string, c: Call): History {
    match c
    case RunAt(now) =>
      if Fires(h.lastRun, now)
      then h.(lastRun := Some(now), input := h.input + PortalInput(tpKB), fired := h.fired + [now])
      else h
    case StatusAt(now, objects) =>
      var r := Observe(h.status, h.lastRun, now, objects);
      h.(status := if r == Completed then Completed else h.status, reports := h.reports + [r])
  }

  function Replay(h: History, tpKB: string, calls: seq<Call>): History
    decreases |calls|
  {
    if calls == [] then h else Replay(Apply(h, tpKB, calls[0]), tpKB, calls[1..])
  }

  ghost predicate StickyReports(h: History) {
    && (forall i, j :: 0 <= i < j < |h.reports| && h.reports[i] == Completed ==> h.reports[j] == Completed)
    && (forall i :: 0 <= i < |h.reports| && h.reports[i] == Completed ==> h.status == Completed)
    && (forall i :: 0 <= i < |h.reports| ==> h.reports[i] != Failed)
  }

  /** Once a Status call reports Completed, every later one does; none reports Failed. */
  lemma {:induction false} ReplayKeepsCompletion(h: History, tpKB: string, calls: seq<Call>)
    requires StickyReports(h)
    ensures StickyReports(Replay(h, tpKB, calls))
    ensures |Replay(h, tpKB, calls).reports| >= |h.reports|
    ensures Replay(h, tpKB, calls).reports[..|h.reports|] == h.reports
    decreases |calls|
  {
    if calls != [] {
      var h1 := Apply(h, tpKB, calls[0]);
      assert StickyReports(h1);
      ReplayKeepsCompletion(h1, tpKB, calls[1..]);
      var r := Replay(h1, tpKB, calls[1..]);
      assert r.reports[..|h.reports|] == r.reports[..|h1.reports|][..|h.reports|];
    }
  }

  ghost predicate Throttled(h: History) {
    && (forall i :: 0 < i < |h.fired| ==> h.fired[i] >= h.fired[i - 1] + ThrottleMs)
    && (|h.fired| > 0 ==> h.lastRun == Some(h.fired[|h.fired| - 1]))
    && |h.input| == 2 * |h.fired|
  }

  /**
   * Fired Runs are at least two seconds apart, each contributes exactly one
   * key press and one click, and Status calls add no input.
   */
  lemma {:induction false} ReplayThrottles(h: History, tpKB: string, calls: seq<Call>)
    requires Throttled(h)
    ensures Throttled(Replay(h, tpKB, calls))
    ensures (forall k :: 0 <= k < |calls| ==> calls[k].StatusAt?) ==> Replay(h, tpKB, calls).input == h.input
    ensures (forall k :: 0 <= k < |calls| ==> calls[k].StatusAt?) ==> Replay(h, tpKB, calls).lastRun == h.lastRun
    decreases |calls|
  {
    if calls != [] {
      var h1 := Apply(h, tpKB, calls[0]);
      if calls[0].RunAt? && Fires(h.lastRun, calls[0].now) {
        assert h1.fired[..|h.fired|] == h.fired;
      }
      assert Throttled(h1);
      ReplayThrottles(h1, tpKB, calls[1..]);
    }
  }

  /** Two Runs within two seconds fire once; a third, two seconds after the first, fires again. */
  lemma ThrottleScenario(h: History, tpKB: string, t: nat, d1: nat, d2: nat)
    requires Fires(h.lastRun, t)
    requires d1 < ThrottleMs <= d2
    ensures Replay(h, tpKB, [RunAt(t), RunAt(t + d1), RunAt(t + d2)]).input
            == h.input + PortalInput(tpKB) + PortalInput(tpKB)
  {
    var calls := [RunAt(t), RunAt(t + d1), RunAt(t + d2)];
    assert calls[1..] == [RunAt(t + d1), RunAt(t + d2)];
    assert calls[1..][1..] == [RunAt(t + d2)];
    var h1 := Apply(h, tpKB, RunAt(t));
    assert h1.lastRun == Some(t) && h1.input == h.input + PortalInput(tpKB);
    assert Apply(h1, tpKB, RunAt(t + d1)) == h1;
    var h3 := Apply(h1, tpKB, RunAt(t + d2));
    assert h3.input == h.input + PortalInput(tpKB) + PortalInput(tpKB);
    assert Replay(h, tpKB, calls) == Replay(h1, tpKB, calls[1..]);
    assert Replay(h1, tpKB, calls[1..]) == Replay(h1, tpKB, calls[1..][1..]);
    assert Replay(h1, tpKB, calls[1..][1..]) == Replay(h3, tpKB, []);
  }
}
