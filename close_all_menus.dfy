/**
 * CloseAllMenus: while the snapshot shows an open menu, pass the pause point,
 * refresh the snapshot and press ESC, giving up when a twelfth round would be
 * needed. The loop test reads the snapshot of the previous round's refresh,
 * so a menu that closed is noticed one round later.
 */
module CloseAllMenus {
  import opened Common
  import opened V2Context

  const MaxAttempts: nat := 10
  const FailedClosing := "failed closing game menu"

  /**
   * What the loop test sees before round `k`: the snapshot on entry for the
   * first test, afterwards the snapshot refreshed in round k - 1.
   */
  function LoopTest(entry: bool, world: nat -> Snapshot, r0: nat, k: nat): bool {
    if k == 0 then entry else world(r0 + k - 1).menuOpen
  }

  ghost predicate OpenThrough(entry: bool, world: nat -> Snapshot, r0: nat, k: nat) {
    forall j :: 0 <= j < k ==> LoopTest(entry, world, r0, j)
  }

  const EscPress: Effect := Input(PressKey(Escape))

  /** One full round of the loop. */
  function Round(): seq<Effect> {
    [Pause, Refresh, EscPress]
  }

  function Rounds(k: nat): seq<Effect> {
    if k == 0 then [] else Rounds(k - 1) + Round()
  }

  method CloseAllMenus(ctx: Context) returns (err: Option<string>)
    modifies ctx
    ensures ctx.lastStep == "CloseAllMenus"
    ensures err == None || err == Some(FailedClosing)
    ensures err == None ==>
      var k := ctx.refreshes - old(ctx.refreshes);
      && 0 <= k <= MaxAttempts + 1
      && OpenThrough(old(ctx.data.menuOpen), ctx.world, old(ctx.refreshes), k)
      && !LoopTest(old(ctx.data.menuOpen), ctx.world, old(ctx.refreshes), k)
      && ctx.trace == old(ctx.trace) + Rounds(k)
      && ctx.data == (if k == 0 then old(ctx.data) else ctx.world(old(ctx.refreshes) + k - 1))
    ensures err != None ==>
      && ctx.refreshes == old(ctx.refreshes) + MaxAttempts + 2
      && OpenThrough(old(ctx.data.menuOpen), ctx.world, old(ctx.refreshes), MaxAttempts + 2)
      && ctx.trace == old(ctx.trace) + Rounds(MaxAttempts + 1) + [Pause, Refresh]
      && ctx.data == ctx.world(old(ctx.refreshes) + MaxAttempts + 1)
  {
    ghost var entry, r0 := ctx.data.menuOpen, ctx.refreshes;
    ctx.lastStep := "CloseAllMenus";
    var attempts: nat := 0;
    while ctx.data.menuOpen
      invariant attempts <= MaxAttempts + 1
      invariant ctx.lastStep == "CloseAllMenus"
      invariant ctx.refreshes == r0 + attempts
      invariant OpenThrough(entry, ctx.world, r0, attempts)
      invariant ctx.data.menuOpen == LoopTest(entry, ctx.world, r0, attempts)
      invariant ctx.data == (if attempts == 0 then old(ctx.data) else ctx.world(r0 + attempts - 1))
      invariant ctx.trace == old(ctx.trace) + Rounds(attempts)
      decreases MaxAttempts + 1 - attempts
    {
      ctx.PauseIfNotPriority();
      ctx.RefreshGameData();
      if attempts > MaxAttempts {
        return Some(FailedClosing);
      }
      ctx.PressKey(Escape);
      attempts := attempts + 1;
    }
    return None;
  }

  // ---------------------------------------------------------------------------

  function EscCount(t: seq<Effect>): nat {
    if t == [] then 0 else EscCount(t[..|t| - 1]) + (if t[|t| - 1] == EscPress then 1 else 0)
  }

  /** Every ESC press comes right after a pause point and a refresh. */
  ghost predicate EscGuarded(t: seq<Effect>) {
    forall i :: 0 <= i < |t| && t[i] == EscPress ==> 2 <= i && t[i - 2] == Pause && t[i - 1] == Refresh
  }

  /** k rounds press ESC exactly k times, each after a pause point and a refresh. */
  lemma {:induction false} RoundsShape(k: nat)
    ensures |Rounds(k)| == 3 * k
    ensures EscCount(Rounds(k)) == k
    ensures EscGuarded(Rounds(k))
  {
    if k > 0 {
      RoundsShape(k - 1);
      var p := Rounds(k - 1);
      var t := Rounds(k);
      assert t == p + [Pause, Refresh, EscPress];
      assert t[..|t| - 1][..|t| - 2] == p + [Pause];
      assert (p + [Pause])[..|p|] == p;
      assert EscCount(p + [Pause]) == EscCount(p);
      assert t[..|t| - 1] == p + [Pause, Refresh];
      assert (p + [Pause, Refresh])[..|p| + 1] == p + [Pause];
      assert EscCount(p + [Pause, Refresh]) == EscCount(p);
    }
  }

  /** Whatever the outcome, at most eleven ESC presses are issued, all guarded. */
  lemma OutcomeEscapes(k: nat)
    requires k <= MaxAttempts + 1
    ensures EscCount(Rounds(k)) <= MaxAttempts + 1 && EscGuarded(Rounds(k))
    ensures EscCount(Rounds(MaxAttempts + 1) + [Pause, Refresh]) == MaxAttempts + 1
    ensures EscGuarded(Rounds(MaxAttempts + 1) + [Pause, Refresh])
  {
    RoundsShape(k);
    RoundsShape(MaxAttempts + 1);
    var p := Rounds(MaxAttempts + 1);
    assert (p + [Pause, Refresh])[..|p| + 1] == p + [Pause];
    assert (p + [Pause])[..|p|] == p;
  }
}
