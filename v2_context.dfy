/**
 * The per-session execution context of the v2 steps: the current game
 * snapshot, the debug marker of the last step, and one ordered trace of what
 * the session did (cooperative pause points, snapshot refreshes, input).
 * The game-memory reader is an oracle: the k-th refresh reads `world(k)`.
 */
module V2Context {
  import opened Common

  /** The parts of a game snapshot the v2 steps read. */
  datatype Snapshot = Snapshot(menuOpen: bool, rightSkill: Skill, bindings: map<Skill, KeyBinding>)

  datatype Effect = Pause | Refresh | Input(event: InputEvent)

  class Context {
    var lastStep: string
    var data: Snapshot
    var trace: seq<Effect>
    var refreshes: nat
    const world: nat -> Snapshot

    constructor (world: nat -> Snapshot, initial: Snapshot)
      ensures this.world == world && data == initial
      ensures lastStep == "" && trace == [] && refreshes == 0
    {
      this.world := world;
      data := initial;
      lastStep := "";
      trace := [];
      refreshes := 0;
    }

    /** The cooperative suspension point; its outcome is only that it was passed. */
    method PauseIfNotPriority()
      modifies this`trace
      ensures trace == old(trace) + [Pause]
    {
      trace := trace + [Pause];
    }

    /** Re-read the snapshot from the game. */
    method RefreshGameData()
      modifies this`data, this`refreshes, this`trace
      ensures data == world(old(refreshes)) && refreshes == old(refreshes) + 1
      ensures trace == old(trace) + [Refresh]
    {
      data := world(refreshes);
      refreshes := refreshes + 1;
      trace := trace + [Refresh];
    }

    method PressKey(k: Key)
      modifies this`trace
      ensures trace == old(trace) + [Input(InputEvent.PressKey(k))]
    {
      trace := trace + [Input(InputEvent.PressKey(k))];
    }

    method PressKeyBinding(kb: KeyBinding)
      modifies this`trace
      ensures trace == old(trace) + [Input(InputEvent.PressKeyBinding(kb))]
    {
      trace := trace + [Input(InputEvent.PressKeyBinding(kb))];
    }
  }
}
