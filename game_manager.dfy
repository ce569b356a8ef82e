/**
 * The game-session transitions of the bot: leaving a game, starting a new one
 * from the character screen, creating and joining online games, and the pure
 * parts of launching the client (its argument list, the realm's region and
 * the choice between a new client and an already running one).
 *
 * The memory reader is an oracle: its i-th query (InGame,
 * IsInCharacterSelectionScreen or the quit-menu flag of GetData) reads
 * snapshot `At(world, i)` of a finite script. Sleeps between polls are not modelled.
 */
module GameManager {
  import opened Common
  import opened Config

  datatype Snapshot = Snapshot(inGame: bool, charSelect: bool, quitMenu: bool)

  /**
   * The snapshots successive queries read: query i reads `At(world, i)`.
   * After the script ends the game stays as its last snapshot shows.
   */
  type Script = s: seq<Snapshot> | |s| > 0 witness [Snapshot(false, false, false)]

  function At(w: Script, i: nat): Snapshot {
    if i < |w| then w[i] else w[|w| - 1]
  }

  /** Go's `n / 2` on an int: the quotient rounded toward zero, so the remainder has the sign of `n`. */
  function HalfTowardZero(n: int): (r: int)
    ensures n >= 0 ==> 0 <= n - 2 * r <= 1
    ensures n < 0 ==> -1 <= n - 2 * r <= 0
  {
    if n >= 0 then n / 2 else -((-n) / 2)
  }

  class MemoryReader {
    const world: Script
    const gameAreaSizeX: int
    /** int(GameAreaSizeY / 2.2), kept as an opaque coordinate. */
    const quitY: int
    var tick: nat

    constructor (world: Script, gameAreaSizeX: int, quitY: int)
      ensures this.world == world && this.gameAreaSizeX == gameAreaSizeX && this.quitY == quitY
      ensures tick == 0
    {
      this.world := world;
      this.gameAreaSizeX := gameAreaSizeX;
      this.quitY := quitY;
      tick := 0;
    }

    method InGame() returns (b: bool)
      modifies this
      ensures b == At(world, old(tick)).inGame && tick == old(tick) + 1
    {
      b := At(world, tick).inGame;
      tick := tick + 1;
    }

    method IsInCharacterSelectionScreen() returns (b: bool)
      modifies this
      ensures b == At(world, old(tick)).charSelect && tick == old(tick) + 1
    {
      b := At(world, tick).charSelect;
      tick := tick + 1;
    }

    /** GetData(false).OpenMenus.QuitMenu */
    method QuitMenuOpen() returns (b: bool)
      modifies this
      ensures b == At(world, old(tick)).quitMenu && tick == old(tick) + 1
    {
      b := At(world, tick).quitMenu;
      tick := tick + 1;
    }

    /** One poll of a `for range n` waiting loop. */
    method Poll(p: Probe) returns (b: bool)
      modifies this
      ensures b == Holds(p, At(world, old(tick))) && tick == old(tick) + 1
    {
      match p
      case LeftGame =>
        var g := InGame();
        b := !g;
      case EnteredGame =>
        b := InGame();
      case AtCharSelect =>
        b := IsInCharacterSelectionScreen();
    }

    /** Poll at most `n` times, stopping at the first poll that sees `p`. */
    method WaitFor(p: Probe, n: nat) returns (found: bool)
      modifies this
      ensures found == Wait(world, old(tick), n, p).Some?
      ensures tick == old(tick) + Consumed(Wait(world, old(tick), n, p), n)
    {
      var i := 0;
      while i < n
        invariant 0 <= i <= n && tick == old(tick) + i
        invariant forall k :: old(tick) <= k < tick ==> !Holds(p, At(world, k))
      {
        found := Poll(p);
        if found {
          return;
        }
        i := i + 1;
      }
      found := false;
    }
  }

  /** What a waiting loop waits for. */
  datatype Probe = LeftGame | EnteredGame | AtCharSelect

  predicate Holds(p: Probe, s: Snapshot) {
    match p
    case LeftGame => !s.inGame
    case EnteredGame => s.inGame
    case AtCharSelect => s.charSelect
  }

  /**
   * Polling `n` times from tick `t`: the index of the first poll that sees
   * `p`, or None when none of the `n` polls does.
   */
  function Wait(w: Script, t: nat, n: nat, p: Probe): (r: Option<nat>)
    ensures r.Some? ==> r.value < n && Holds(p, At(w, t + r.value))
    ensures r.Some? ==> forall i :: t <= i < t + r.value ==> !Holds(p, At(w, i))
    ensures r.None? ==> forall i :: t <= i < t + n ==> !Holds(p, At(w, i))
    decreases n
  {
    if n == 0 then None
    else if Holds(p, At(w, t)) then Some(0)
    else match Wait(w, t + 1, n - 1, p)
      case None => None
      case Some(i) => Some(i + 1)
  }

  /** How many polls a wait with result `r` and bound `n` made. */
  function Consumed(r: Option<nat>, n: nat): nat {
    if r.Some? then r.value + 1 else n
  }

  // ---------------------------------------------------------------------------
  // Outcomes of the session transitions, as functions of the oracle.

  /** The error, the input issued and the reader's tick afterwards. */
  datatype Outcome = Outcome(err: Option<string>, events: seq<InputEvent>, tick: nat)

  function Prepend(es: seq<InputEvent>, o: Outcome): Outcome {
    o.(events := es + o.events)
  }

  lemma PrependPrepend(a: seq<InputEvent>, b: seq<InputEvent>, o: Outcome)
    ensures Prepend(a, Prepend(b, o)) == Prepend(a + b, o)
  {
    assert a + (b + o.events) == (a + b) + o.events;
  }

  const ExitTimeout := "error exiting game! Timeout"
  const StillInGame := "character still in a game"
  const NewGameTimeout := "timeout"
  const CreateTimeout := "error creating game! Timeout"
  const JoinTimeout := "error joining game! Timeout"

  const ExitPolls: nat := 5
  const ExitRoundsMax: nat := 10
  const CharSelectPolls: nat := 30
  const NewGamePolls: nat := 12
  const OnlinePolls: nat := 30

  /** ExitGame from tick `t`; `quit` is the click on the quit button. */
  function ExitSpec(w: Script, t: nat, quit: InputEvent): Outcome {
    if !At(w, t).inGame then Outcome(None, [], t + 1)
    else
      var first := [PressKey(Escape), quit];
      var p := Wait(w, t + 1, ExitPolls, LeftGame);
      if p.Some? then Outcome(None, first, t + 2 + p.value)
      else Prepend(first, ExitRounds(w, t + 1 + ExitPolls, ExitRoundsMax, quit))
  }

  /** One round of ExitGame's second loop: whether it saw the game left, its input and the tick after it. */
  datatype Round = Round(left: bool, events: seq<InputEvent>, tick: nat)

  function ExitRound(w: Script, t: nat, quit: InputEvent): Round {
    if At(w, t).quitMenu then
      var p := Wait(w, t + 1, ExitPolls, LeftGame);
      if p.Some? then Round(true, [quit], t + 2 + p.value)
      else Round(false, [quit, PressKey(Escape)], t + 1 + ExitPolls)
    else Round(false, [PressKey(Escape)], t + 1)
  }

  /** The last `k` rounds of ExitGame's second loop, starting at tick `t`. */
  function ExitRounds(w: Script, t: nat, k: nat, quit: InputEvent): Outcome
    decreases k
  {
    if k == 0 then Outcome(Some(ExitTimeout), [], t)
    else
      var r := ExitRound(w, t, quit);
      if r.left then Outcome(None, r.events, r.tick)
      else Prepend(r.events, ExitRounds(w, r.tick, k - 1, quit))
  }

  /** The clicks on the character screen's "play" and difficulty buttons. */
  function NewGamePosition(difficulty: Difficulty): (int, int) {
    if difficulty == Normal then (640, 311)
    else if difficulty == Nightmare then (640, 355)
    else if difficulty == Hell then (640, 403)
    else (0, 0)
  }

  function NewGameSpec(w: Script, t: nat, difficulty: Difficulty): Outcome {
    NewGameWith(w, t, difficulty, CharSelectPolls, NewGamePolls)
  }

  /**
   * NewGame with the two poll bounds as parameters (the character-screen wait
   * and the wait for the game), so that its lemmas hold for any bounds.
   */
  function NewGameWith(w: Script, t: nat, difficulty: Difficulty, selectPolls: nat, enterPolls: nat): Outcome {
    if At(w, t).inGame then Outcome(Some(StillInGame), [], t + 1)
    else
      var t1 := t + 1 + Consumed(Wait(w, t + 1, selectPolls, AtCharSelect), selectPolls);
      var pos := NewGamePosition(difficulty);
      var g := Wait(w, t1, enterPolls, EnteredGame);
      Outcome(if g.Some? then None else Some(NewGameTimeout),
              [Click(LeftButton, 600, 650), Click(LeftButton, pos.0, pos.1)],
              t1 + Consumed(g, enterPolls))
  }

  /** The difficulty buttons of the lobby's "create game" tab. */
  function CreateGamePosition(difficulty: Difficulty): (int, int) {
    if difficulty == Normal then (900, 252)
    else if difficulty == Nightmare then (980, 252)
    else if difficulty == Hell then (1065, 252)
    else (0, 0)
  }

  function GameName(template: string, gameCounter: int): string {
    template + IntToDecimal(gameCounter)
  }

  /** Clearing a lobby text box and typing `s` into it. */
  function FieldEntry(s: string): seq<InputEvent> {
    Backspaces(16) + TypeKeys(s)
  }

  function CreateEvents(difficulty: Difficulty, gameName: string, password: string): seq<InputEvent> {
    var pos := CreateGamePosition(difficulty);
    [Click(LeftButton, 845, 54), Click(LeftButton, pos.0, pos.1), Click(LeftButton, 1000, 116)]
    + FieldEntry(gameName)
    + [Click(LeftButton, 1000, 161)]
    + (if password != "" then FieldEntry(password) else [])
    + [PressKey(Enter)]
  }

  function JoinEvents(gameName: string, password: string): seq<InputEvent> {
    [Click(LeftButton, 977, 54), Click(LeftButton, 950, 100)]
    + FieldEntry(gameName)
    + [Click(LeftButton, 1130, 100)]
    + FieldEntry(password)
    + [PressKey(Enter)]
  }

  class Manager {
    const gr: MemoryReader
    const hid: Hid
    const supervisorName: string
    /** config.Characters[supervisorName] */
    const cfg: CharacterCfg

    constructor (gr: MemoryReader, hid: Hid, supervisorName: string, cfg: CharacterCfg)
      ensures this.gr == gr && this.hid == hid && this.supervisorName == supervisorName && this.cfg == cfg
    {
      this.gr := gr;
      this.hid := hid;
      this.supervisorName := supervisorName;
      this.cfg := cfg;
    }

    function QuitClick(): InputEvent
      reads this, gr
    {
      Click(LeftButton, HalfTowardZero(gr.gameAreaSizeX), gr.quitY)
    }

    method ExitGame() returns (err: Option<string>)
      modifies gr, hid
      ensures var o := ExitSpec(gr.world, old(gr.tick), QuitClick());
              err == o.err && hid.trace == old(hid.trace) + o.events && gr.tick == o.tick
    {
      ghost var h0, q := hid.trace, QuitClick();
      var ig := gr.InGame();
      if !ig {
        return None;
      }
      hid.PressKey(Escape);
      hid.Click(LeftButton, HalfTowardZero(gr.gameAreaSizeX), gr.quitY);
      var left := gr.WaitFor(LeftGame, ExitPolls);
      if left {
        return None;
      }
      ghost var h1 := hid.trace;
      err := ExitNicely();
      PrependPrepend(h0, [PressKey(Escape), q], ExitRounds(gr.world, old(gr.tick) + 1 + ExitPolls, ExitRoundsMax, q));
    }

    /** The second loop of ExitGame: up to ten rounds of "quit if the quit menu is open, then ESC". */
    method ExitNicely() returns (err: Option<string>)
      modifies gr, hid
      ensures var o := ExitRounds(gr.world, old(gr.tick), ExitRoundsMax, QuitClick());
              err == o.err && hid.trace == old(hid.trace) + o.events && gr.tick == o.tick
    {
      ghost var q := QuitClick();
      ghost var spec := ExitRounds(gr.world, gr.tick, ExitRoundsMax, q);
      ghost var done := [];
      var round := 0;
      while round < ExitRoundsMax
        invariant 0 <= round <= ExitRoundsMax
        invariant hid.trace == old(hid.trace) + done
        invariant spec == Prepend(done, ExitRounds(gr.world, gr.tick, ExitRoundsMax - round, q))
      {
        ghost var r := ExitRound(gr.world, gr.tick, q);
        var left := ExitRoundStep();
        if left {
          return None;
        }
        PrependPrepend(done, r.events, ExitRounds(gr.world, gr.tick, ExitRoundsMax - round - 1, q));
        done := done + r.events;
        round := round + 1;
      }
      return Some(ExitTimeout);
    }

    method ExitRoundStep() returns (left: bool)
      modifies gr, hid
      ensures var r := ExitRound(gr.world, old(gr.tick), QuitClick());
              left == r.left && hid.trace == old(hid.trace) + r.events && gr.tick == r.tick
    {
      left := false;
      var quit := gr.QuitMenuOpen();
      if quit {
        hid.Click(LeftButton, HalfTowardZero(gr.gameAreaSizeX), gr.quitY);
        left := gr.WaitFor(LeftGame, ExitPolls);
        if left {
          return;
        }
      }
      hid.PressKey(Escape);
    }

    method NewGame() returns (err: Option<string>)
      modifies gr, hid
      ensures var o := NewGameSpec(gr.world, old(gr.tick), cfg.difficulty);
              err == o.err && hid.trace == old(hid.trace) + o.events && gr.tick == o.tick
    {
      var ig := gr.InGame();
      if ig {
        return Some(StillInGame);
      }
      var _ := gr.WaitFor(AtCharSelect, CharSelectPolls);
      ghost var t1 := gr.tick;
      assert t1 == old(gr.tick) + 1 + Consumed(Wait(gr.world, old(gr.tick) + 1, CharSelectPolls, AtCharSelect), CharSelectPolls);
      var pos := NewGamePosition(cfg.difficulty);
      hid.Click(LeftButton, 600, 650);
      hid.Click(LeftButton, pos.0, pos.1);
      assert hid.trace == old(hid.trace) + [Click(LeftButton, 600, 650), Click(LeftButton, pos.0, pos.1)];
      var entered := gr.WaitFor(EnteredGame, NewGamePolls);
      if entered {
        return None;
      }
      return Some(NewGameTimeout);
    }

    method ClearGameNameOrPasswordField()
      modifies hid
      ensures hid.trace == old(hid.trace) + Backspaces(16)
    {
      for i := 0 to 16
        invariant hid.trace == old(hid.trace) + Backspaces(i)
      {
        hid.PressKey(Backspace);
      }
    }

    /** One key press per character of `s`. */
    method TypeText(s: string)
      modifies hid
      ensures hid.trace == old(hid.trace) + TypeKeys(s)
    {
      for i := 0 to |s|
        invariant hid.trace == old(hid.trace) + TypeKeys(s[..i])
      {
        hid.PressKey(Ascii([s[i]]));
        assert s[..i + 1] == s[..i] + [s[i]];
        TypeKeysAppend(s[..i], [s[i]]);
      }
      assert s[..|s|] == s;
    }

    method EnterField(s: string)
      modifies hid
      ensures hid.trace == old(hid.trace) + FieldEntry(s)
    {
      ClearGameNameOrPasswordField();
      TypeText(s);
    }

    /** Poll up to thirty times for the game to be entered. */
    method AwaitGame(timeout: string) returns (err: Option<string>)
      modifies gr
      ensures var g := Wait(gr.world, old(gr.tick), OnlinePolls, EnteredGame);
              gr.tick == old(gr.tick) + Consumed(g, OnlinePolls)
              && err == (if g.Some? then None else Some(timeout))
    {
      var entered := gr.WaitFor(EnteredGame, OnlinePolls);
      if entered {
        return None;
      }
      return Some(timeout);
    }

    method CreateOnlineGame(gameCounter: int) returns (gameName: string, err: Option<string>)
      modifies gr, hid
      ensures gameName == GameName(cfg.gameNameTemplate, gameCounter)
      ensures hid.trace == old(hid.trace) + CreateEvents(cfg.difficulty, gameName, cfg.gamePassword)
      ensures var g := Wait(gr.world, old(gr.tick), OnlinePolls, EnteredGame);
              gr.tick == old(gr.tick) + Consumed(g, OnlinePolls)
              && err == (if g.Some? then None else Some(CreateTimeout))
    {
      ghost var h0 := hid.trace;
      var pos := CreateGamePosition(cfg.difficulty);
      hid.Click(LeftButton, 845, 54);
      hid.Click(LeftButton, pos.0, pos.1);
      hid.Click(LeftButton, 1000, 116);
      ghost var a := [Click(LeftButton, 845, 54), Click(LeftButton, pos.0, pos.1), Click(LeftButton, 1000, 116)];
      assert hid.trace == h0 + a;
      gameName := cfg.gameNameTemplate + IntToDecimal(gameCounter);
      EnterField(gameName);
      AppendAssoc(h0, a, FieldEntry(gameName));
      hid.Click(LeftButton, 1000, 161);
      ghost var b := a + FieldEntry(gameName) + [Click(LeftButton, 1000, 161)];
      AppendAssoc(h0, a + FieldEntry(gameName), [Click(LeftButton, 1000, 161)]);
      var pw := cfg.gamePassword;
      ghost var c: seq<InputEvent> := [];
      if pw != "" {
        EnterField(pw);
        c := FieldEntry(pw);
        AppendAssoc(h0, b, c);
      } else {
        assert b + c == b;
      }
      hid.PressKey(Enter);
      AppendAssoc(h0, b + c, [PressKey(Enter)]);
      err := AwaitGame(CreateTimeout);
    }

    method JoinOnlineGame(gameName: string, password: string) returns (err: Option<string>)
      modifies gr, hid
      ensures hid.trace == old(hid.trace) + JoinEvents(gameName, password)
      ensures var g := Wait(gr.world, old(gr.tick), OnlinePolls, EnteredGame);
              gr.tick == old(gr.tick) + Consumed(g, OnlinePolls)
              && err == (if g.Some? then None else Some(JoinTimeout))
    {
      ghost var h0 := hid.trace;
      hid.Click(LeftButton, 977, 54);
      hid.Click(LeftButton, 950, 100);
      EnterField(gameName);
      hid.Click(LeftButton, 1130, 100);
      ghost var b := [Click(LeftButton, 977, 54), Click(LeftButton, 950, 100)]
                     + FieldEntry(gameName) + [Click(LeftButton, 1130, 100)];
      assert hid.trace == h0 + b;
      EnterField(password);
      hid.PressKey(Enter);
      assert hid.trace == h0 + (b + FieldEntry(password) + [PressKey(Enter)]);
      err := AwaitGame(JoinTimeout);
    }
  }

  // ---------------------------------------------------------------------------
  // What the session transitions promise, for every oracle.

  /** Not in game: ExitGame returns nil after one poll and presses nothing. */
  lemma ExitWhenNotInGame(w: Script, t: nat, quit: InputEvent)
    requires !At(w, t).inGame
    ensures ExitSpec(w, t, quit) == Outcome(None, [], t + 1)
  {
  }

  /** One round: its polls, and the single ESC it presses unless it saw the game left. */
  lemma ExitRoundFacts(w: Script, t: nat, quit: InputEvent)
    requires quit.Click?
    ensures var r := ExitRound(w, t, quit);
      && t < r.tick <= t + 1 + ExitPolls
      && (r.left ==> !At(w, r.tick - 1).inGame)
      && (!r.left ==> CountPresses(r.events, Escape) == 1)
      && ((forall i :: t <= i < t + 1 + ExitPolls ==> At(w, i).inGame) ==> !r.left)
      && (r.left <==> At(w, t).quitMenu && exists j :: t < j <= t + ExitPolls && !At(w, j).inGame)
  {
    var r := ExitRound(w, t, quit);
    if At(w, t).quitMenu && exists j :: t < j <= t + ExitPolls && !At(w, j).inGame {
      var j :| t < j <= t + ExitPolls && !At(w, j).inGame;
      assert Holds(LeftGame, At(w, j));
    }
    if !r.left {
      if At(w, t).quitMenu {
        assert r.events == [quit] + [PressKey(Escape)];
        CountPressesAppend([quit], [PressKey(Escape)], Escape);
        assert [quit][..0] == [] && [PressKey(Escape)][..0] == [];
      } else {
        assert r.events[..0] == [];
      }
    }
  }

  lemma {:induction false} ExitRoundsResult(w: Script, t: nat, k: nat, quit: InputEvent)
    requires quit.Click?
    ensures var o := ExitRounds(w, t, k, quit);
      && (o.err == None || o.err == Some(ExitTimeout))
      && (o.err == None ==> t < o.tick && !At(w, o.tick - 1).inGame)
      && o.tick <= t + k * (1 + ExitPolls)
    decreases k
  {
    if k > 0 {
      ExitRoundFacts(w, t, quit);
      var r := ExitRound(w, t, quit);
      if !r.left {
        ExitRoundsResult(w, r.tick, k - 1, quit);
      }
    }
  }

  /** A game left in time stops the rounds; one never left presses ESC once per round. */
  lemma {:induction false} ExitRoundsEscapes(w: Script, t: nat, k: nat, quit: InputEvent)
    requires quit.Click?
    ensures var o := ExitRounds(w, t, k, quit);
      o.err != None ==> CountPresses(o.events, Escape) == k
    decreases k
  {
    if k > 0 {
      ExitRoundFacts(w, t, quit);
      var r := ExitRound(w, t, quit);
      if !r.left {
        var rest := ExitRounds(w, r.tick, k - 1, quit);
        ExitRoundsEscapes(w, r.tick, k - 1, quit);
        CountPressesAppend(r.events, rest.events, Escape);
      }
    }
  }

  lemma {:induction false} ExitRoundsStuck(w: Script, t: nat, k: nat, quit: InputEvent)
    requires quit.Click?
    requires forall i :: t <= i < t + k * (1 + ExitPolls) ==> At(w, i).inGame
    ensures ExitRounds(w, t, k, quit).err == Some(ExitTimeout)
    decreases k
  {
    if k > 0 {
      ExitRoundFacts(w, t, quit);
      var r := ExitRound(w, t, quit);
      ExitRoundsStuck(w, r.tick, k - 1, quit);
    }
  }

  /**
   * ExitGame either returns nil right after a poll that saw the game left,
   * or the timeout error; it polls at most 66 times.
   */
  lemma ExitGameResult(w: Script, t: nat, quit: InputEvent)
    requires quit.Click?
    ensures var o := ExitSpec(w, t, quit);
      && (o.err == None || o.err == Some(ExitTimeout))
      && (o.err == None ==> t < o.tick && !At(w, o.tick - 1).inGame)
      && o.tick <= t + 1 + ExitPolls + ExitRoundsMax * (1 + ExitPolls)
      && (At(w, t).inGame && (exists j :: t < j <= t + ExitPolls && !At(w, j).inGame) ==>
            && o.err == None && o.tick <= t + 1 + ExitPolls
            && forall i :: t <= i < o.tick - 1 ==> At(w, i).inGame)
  {
    if At(w, t).inGame {
      if exists j :: t < j <= t + ExitPolls && !At(w, j).inGame {
        ExitGameLeavesEarly(w, t, quit);
      }
      var p := Wait(w, t + 1, ExitPolls, LeftGame);
      if p.None? {
        var rest := ExitRounds(w, t + 1 + ExitPolls, ExitRoundsMax, quit);
        ExitRoundsResult(w, t + 1 + ExitPolls, ExitRoundsMax, quit);
        assert ExitSpec(w, t, quit) == Prepend([PressKey(Escape), quit], rest);
      } else {
        assert ExitSpec(w, t, quit) == Outcome(None, [PressKey(Escape), quit], t + 2 + p.value);
      }
    }
  }

  /** A game seen left by one of the first five polls ends ExitGame at that poll. */
  lemma ExitGameLeavesEarly(w: Script, t: nat, quit: InputEvent)
    requires At(w, t).inGame && exists j :: t < j <= t + ExitPolls && !At(w, j).inGame
    ensures var p := Wait(w, t + 1, ExitPolls, LeftGame);
      && p.Some?
      && ExitSpec(w, t, quit) == Outcome(None, [PressKey(Escape), quit], t + 2 + p.value)
      && forall i :: t <= i < t + 1 + p.value ==> At(w, i).inGame
  {
    var j :| t < j <= t + ExitPolls && !At(w, j).inGame;
    assert Holds(LeftGame, At(w, j));
  }

  /** Before the timeout error, ExitGame has pressed ESC eleven times. */
  lemma ExitGameEscapes(w: Script, t: nat, quit: InputEvent)
    requires quit.Click?
    ensures var o := ExitSpec(w, t, quit);
      o.err != None ==> CountPresses(o.events, Escape) == 1 + ExitRoundsMax
  {
    if At(w, t).inGame && Wait(w, t + 1, ExitPolls, LeftGame).None? {
      var rest := ExitRounds(w, t + 1 + ExitPolls, ExitRoundsMax, quit);
      ExitRoundsEscapes(w, t + 1 + ExitPolls, ExitRoundsMax, quit);
      CountPressesAppend([PressKey(Escape), quit], rest.events, Escape);
      assert [PressKey(Escape), quit] == [PressKey(Escape)] + [quit];
      CountPressesAppend([PressKey(Escape)], [quit], Escape);
      assert [quit][..0] == [] && [PressKey(Escape)][..0] == [];
    }
  }

  /** A game that stays entered over all of ExitGame's 66 polls ends in the timeout error. */
  lemma ExitGameStuck(w: Script, t: nat, quit: InputEvent)
    requires quit.Click?
    requires forall i :: t <= i < t + 1 + ExitPolls + ExitRoundsMax * (1 + ExitPolls) ==> At(w, i).inGame
    ensures ExitSpec(w, t, quit).err == Some(ExitTimeout)
  {
    assert !Holds(LeftGame, At(w, t + 1));
    ExitRoundsStuck(w, t + 1 + ExitPolls, ExitRoundsMax, quit);
  }

  /**
   * NewGame: in game, it fails at once without input; otherwise it clicks
   * "play" and the difficulty whether or not the character screen was seen,
   * and succeeds exactly when a poll afterwards sees the game entered.
   */
  lemma NewGameResult(w: Script, t: nat, d: Difficulty)
    ensures var o := NewGameSpec(w, t, d);
      && (At(w, t).inGame ==> o == Outcome(Some(StillInGame), [], t + 1))
      && (!At(w, t).inGame ==>
            && o.events == [Click(LeftButton, 600, 650), Click(LeftButton, NewGamePosition(d).0, NewGamePosition(d).1)]
            && (o.err == None || o.err == Some(NewGameTimeout))
            && (o.err == None ==> At(w, o.tick - 1).inGame)
            && (o.err == Some(NewGameTimeout) ==>
                  o.tick >= NewGamePolls && forall i :: o.tick - NewGamePolls <= i < o.tick ==> !At(w, i).inGame))
      && o.tick <= t + 1 + CharSelectPolls + NewGamePolls
  {
    NewGameWithResult(w, t, d, CharSelectPolls, NewGamePolls);
  }

  lemma NewGameWithResult(w: Script, t: nat, d: Difficulty, selectPolls: nat, enterPolls: nat)
    ensures var o := NewGameWith(w, t, d, selectPolls, enterPolls);
      && (At(w, t).inGame ==> o == Outcome(Some(StillInGame), [], t + 1))
      && (!At(w, t).inGame ==>
            && o.events == [Click(LeftButton, 600, 650), Click(LeftButton, NewGamePosition(d).0, NewGamePosition(d).1)]
            && (o.err == None || o.err == Some(NewGameTimeout))
            && (o.err == None ==> At(w, o.tick - 1).inGame)
            && (o.err == Some(NewGameTimeout) ==>
                  o.tick >= enterPolls && forall i :: o.tick - enterPolls <= i < o.tick ==> !At(w, i).inGame))
      && o.tick <= t + 1 + selectPolls + enterPolls
  {
    if !At(w, t).inGame {
      var t1 := t + 1 + Consumed(Wait(w, t + 1, selectPolls, AtCharSelect), selectPolls);
      var g := Wait(w, t1, enterPolls, EnteredGame);
      if g.Some? {
        assert Holds(EnteredGame, At(w, t1 + g.value));
      }
    }
  }

  /** The input NewGame issues does not depend on what the character-screen polls saw. */
  lemma NewGameIgnoresCharSelect(w1: Script, w2: Script, t: nat, d: Difficulty)
    requires At(w1, t).inGame == At(w2, t).inGame
    ensures NewGameSpec(w1, t, d).events == NewGameSpec(w2, t, d).events
  {
  }

  lemma {:induction false} FieldEntryCount(s: string, k: Key)
    ensures CountPresses(FieldEntry(s), k)
            == (if k == Backspace then 16 else 0) + (if k.Ascii? && |k.name| == 1 then multiset(s)[k.name[0]] else 0)
  {
    CountPressesAppend(Backspaces(16), TypeKeys(s), k);
    BackspacesCount(16, k);
    TypeKeysCount(s, k);
  }

  /** Clicks press no key. */
  lemma ClicksCount(cs: seq<InputEvent>, k: Key)
    requires forall i :: 0 <= i < |cs| ==> cs[i].Click?
    ensures CountPresses(cs, k) == 0
  {
    if cs != [] {
      ClicksCount(cs[..|cs| - 1], k);
    }
  }

  lemma CreateEventsSplit(d: Difficulty, name: string, password: string, k: Key)
    ensures CountPresses(CreateEvents(d, name, password), k)
            == CountPresses(FieldEntry(name), k)
               + (if password != "" then CountPresses(FieldEntry(password), k) else 0)
               + (if k == Enter then 1 else 0)
  {
    var pos := CreateGamePosition(d);
    var a := [Click(LeftButton, 845, 54), Click(LeftButton, pos.0, pos.1), Click(LeftButton, 1000, 116)];
    var c := [Click(LeftButton, 1000, 161)];
    var pw := if password != "" then FieldEntry(password) else [];
    ClicksCount(a, k);
    ClicksCount(c, k);
    CountPressesAppend(a, FieldEntry(name), k);
    CountPressesAppend(a + FieldEntry(name), c, k);
    CountPressesAppend(a + FieldEntry(name) + c, pw, k);
    CountPressesAppend(a + FieldEntry(name) + c + pw, [PressKey(Enter)], k);
    assert [PressKey(Enter)][..0] == [];
  }

  /**
   * Creating a game clears the name box, and the password box only when a
   * password is configured, with sixteen backspaces each; it types each
   * character of the name and of the password once and presses Enter once.
   */
  lemma CreateEventsCount(d: Difficulty, name: string, password: string, c: char)
    ensures CountPresses(CreateEvents(d, name, password), Backspace) == if password != "" then 32 else 16
    ensures CountPresses(CreateEvents(d, name, password), Enter) == 1
    ensures CountPresses(CreateEvents(d, name, password), Ascii([c]))
            == multiset(name)[c] + (if password != "" then multiset(password)[c] else 0)
  {
    CreateEventsSplit(d, name, password, Backspace);
    CreateEventsSplit(d, name, password, Enter);
    CreateEventsSplit(d, name, password, Ascii([c]));
    FieldEntryCount(name, Backspace);
    FieldEntryCount(name, Enter);
    FieldEntryCount(name, Ascii([c]));
    FieldEntryCount(password, Backspace);
    FieldEntryCount(password, Enter);
    FieldEntryCount(password, Ascii([c]));
  }

  lemma JoinEventsSplit(name: string, password: string, k: Key)
    ensures CountPresses(JoinEvents(name, password), k)
            == CountPresses(FieldEntry(name), k) + CountPresses(FieldEntry(password), k) + (if k == Enter then 1 else 0)
  {
    var a := [Click(LeftButton, 977, 54), Click(LeftButton, 950, 100)];
    var c := [Click(LeftButton, 1130, 100)];
    ClicksCount(a, k);
    ClicksCount(c, k);
    CountPressesAppend(a, FieldEntry(name), k);
    CountPressesAppend(a + FieldEntry(name), c, k);
    CountPressesAppend(a + FieldEntry(name) + c, FieldEntry(password), k);
    CountPressesAppend(a + FieldEntry(name) + c + FieldEntry(password), [PressKey(Enter)], k);
    assert [PressKey(Enter)][..0] == [];
  }

  /** Joining clears both boxes, types the name and the password, and presses Enter once. */
  lemma JoinEventsCount(name: string, password: string, c: char)
    ensures CountPresses(JoinEvents(name, password), Backspace) == 32
    ensures CountPresses(JoinEvents(name, password), Enter) == 1
    ensures CountPresses(JoinEvents(name, password), Ascii([c])) == multiset(name)[c] + multiset(password)[c]
  {
    JoinEventsSplit(name, password, Backspace);
    JoinEventsSplit(name, password, Enter);
    JoinEventsSplit(name, password, Ascii([c]));
    FieldEntryCount(name, Backspace);
    FieldEntryCount(name, Enter);
    FieldEntryCount(name, Ascii([c]));
    FieldEntryCount(password, Backspace);
    FieldEntryCount(password, Enter);
    FieldEntryCount(password, Ascii([c]));
  }

  /** The counter can be read back from the end of the game name. */
  lemma GameNameCounter(template: string, gameCounter: nat)
    ensures var g := GameName(template, gameCounter);
      && g[..|template|] == template
      && (forall i :: |template| <= i < |g| ==> IsDigit(g[i]))
      && DecimalValue(g[|template|..]) == gameCounter
  {
    var g := GameName(template, gameCounter);
    assert g[|template|..] == NatToDecimal(gameCounter);
    DecimalRoundTrip(gameCounter);
  }

  // ---------------------------------------------------------------------------
  // Launching the client.

  /** The authentication part of the client's command line. */
  function BaseArgs(authMethod: string, username: string, password: string, realm: string): seq<string> {
    if authMethod == TokenAuth then ["-uid", "osi"]
    else if authMethod == UsernamePassword then ["-username", username, "-password", password, "-address", realm]
    else []
  }

  /** The client's full argument list: the authentication part, then the extra arguments split at white space. */
  function LaunchArgs(authMethod: string, username: string, password: string, realm: string, arguments: string): seq<string> {
    BaseArgs(authMethod, username, password, realm) + Fields(arguments)
  }

  /**
   * The command line starts with the arguments of the authentication method
   * and ends with the extra arguments as words: every non-space character of
   * them in order, and exactly the words when they were written with single
   * spaces between them.
   */
  lemma LaunchArgsShape(authMethod: string, username: string, password: string, realm: string, arguments: string)
    ensures var r := LaunchArgs(authMethod, username, password, realm, arguments);
      var n := if authMethod == TokenAuth then 2 else if authMethod == UsernamePassword then 6 else 0;
      && |r| >= n
      && (authMethod == TokenAuth ==> r[..n] == ["-uid", "osi"])
      && (authMethod == UsernamePassword ==> r[..n] == ["-username", username, "-password", password, "-address", realm])
      && (forall i :: n <= i < |r| ==> IsWord(r[i]))
      && Concat(r[n..]) == NonSpace(arguments)
  {
    var r := LaunchArgs(authMethod, username, password, realm, arguments);
    var b := BaseArgs(authMethod, username, password, realm);
    assert r[..|b|] == b && r[|b|..] == Fields(arguments);
    FieldsKeepText(arguments);
  }

  lemma LaunchArgsOfWords(authMethod: string, username: string, password: string, realm: string, ws: seq<string>)
    requires forall i :: 0 <= i < |ws| ==> IsWord(ws[i])
    ensures LaunchArgs(authMethod, username, password, realm, JoinWords(ws)) == BaseArgs(authMethod, username, password, realm) + ws
  {
    FieldsOfJoin(ws);
  }

  /** The REGION value written for a realm host; unknown hosts count as Europe. */
  function Region(realm: string): (r: string)
    ensures r == "US" <==> realm == "us.actual.battle.net"
    ensures r == "KR" <==> realm == "kr.actual.battle.net"
    ensures r == "EU" <==> realm != "us.actual.battle.net" && realm != "kr.actual.battle.net"
  {
    if realm == "eu.actual.battle.net" then "EU"
    else if realm == "us.actual.battle.net" then "US"
    else if realm == "kr.actual.battle.net" then "KR"
    else "EU"
  }

  /** A running process: its id and its name, or None when reading the name failed. */
  datatype Process = Process(pid: nat, name: Option<string>)

  /** The index of the first process named D2R.exe. */
  function FirstClient(ps: seq<Process>): (r: Option<nat>)
    ensures r.Some? ==> r.value < |ps| && ps[r.value].name == Some("D2R.exe")
    ensures r.Some? ==> forall j :: 0 <= j < r.value ==> ps[j].name != Some("D2R.exe")
    ensures r.None? ==> forall j :: 0 <= j < |ps| ==> ps[j].name != Some("D2R.exe")
  {
    if ps == [] then None
    else if ps[0].name == Some("D2R.exe") then Some(0)
    else match FirstClient(ps[1..])
      case None => None
      case Some(i) => Some(i + 1)
  }

  /** What StartGameOrUseExisting does. */
  datatype Launch = StartNew | UseExisting(pid: nat) | ProcessListError

  /**
   * Only the supervisor "SorcLeveling" looks for a running client; it attaches
   * to the first one found, unless none was found or its id reads as 0.
   */
  method StartGameOrUseExisting(supervisorName: string, processes: Option<seq<Process>>) returns (l: Launch)
    ensures supervisorName != "SorcLeveling" ==> l == StartNew
    ensures supervisorName == "SorcLeveling" && processes.None? ==> l == ProcessListError
    ensures supervisorName == "SorcLeveling" && processes.Some? ==>
              var f := FirstClient(processes.value);
              l == if f.Some? && processes.value[f.value].pid != 0 then UseExisting(processes.value[f.value].pid) else StartNew
  {
    if supervisorName != "SorcLeveling" {
      return StartNew;
    }
    if processes.None? {
      return ProcessListError;
    }
    var ps := processes.value;
    var existingPid: nat := 0;
    var i := 0;
    while i < |ps|
      invariant 0 <= i <= |ps|
      invariant forall j :: 0 <= j < i ==> ps[j].name != Some("D2R.exe")
    {
      if ps[i].name.Some? && ps[i].name.value == "D2R.exe" {
        existingPid := ps[i].pid;
        break;
      }
      i := i + 1;
    }
    if existingPid == 0 {
      return StartNew;
    }
    return UseExisting(existingPid);
  }
}
