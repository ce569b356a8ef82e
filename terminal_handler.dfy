/**
 * The overseer's terminal: a text message is split into words, the first
 * naming the supervisor and the second the command; "copy" and "tmp" are
 * handled, anything else gets a "no handler" reply. Each handler takes
 * exactly two text arguments, padded with empty strings or cut to length.
 */
module TerminalHandler {
  import opened Common
  import opened Config

  /**
   * What the tokenising of a message yields. `IndexPanic` is a message of
   * exactly one word: reading the command indexes past the end of the word
   * list, and the handler panics.
   */
  datatype Command = Empty | IndexPanic | Dispatch(supervisor: string, cmd: string, args: seq<string>)

  function Parse(msg: string): (r: Command)
    ensures r.Empty? <==> Fields(msg) == []
    ensures r.IndexPanic? <==> |Fields(msg)| == 1
    ensures r.Dispatch? ==> [r.supervisor, r.cmd] + r.args == Fields(msg)
  {
    var words := Fields(msg);
    if |words| < 1 then Empty
    else if |words| < 2 then IndexPanic
    else Dispatch(words[0], words[1], if |words| > 2 then words[2..] else [])
  }

  /** Words typed with single spaces come back as supervisor, command and arguments. */
  lemma ParseOfWords(ws: seq<string>)
    requires |ws| >= 2
    requires forall i :: 0 <= i < |ws| ==> IsWord(ws[i])
    ensures Parse(JoinWords(ws)) == Dispatch(ws[0], ws[1], ws[2..])
  {
    FieldsOfJoin(ws);
  }

  /** A message of nothing but white space does nothing. */
  lemma BlankIsEmpty(msg: string)
    requires forall i :: 0 <= i < |msg| ==> IsSpace(msg[i])
    ensures Parse(msg) == Empty
  {
    FieldsOfBlank(msg);
  }

  /** A message that is one word, such as a bare supervisor name, makes the handler panic. */
  lemma OneWordPanics(w: string)
    requires IsWord(w)
    ensures Parse(w) == IndexPanic
  {
    FieldsOfJoin([w]);
  }

  /** callHandlerFn: the arguments padded with "" or cut to exactly `expected` entries. */
  function AdaptArgs(args: seq<string>, expected: nat): (r: seq<string>)
    ensures |r| == expected
    ensures forall i :: 0 <= i < expected ==> r[i] == if i < |args| then args[i] else ""
  {
    if |args| < expected then args + seq(expected - |args|, _ => "")
    else if |args| > expected then args[..expected]
    else args
  }

  /** Adapting twice changes nothing more. */
  lemma AdaptArgsIdempotent(args: seq<string>, expected: nat)
    ensures AdaptArgs(AdaptArgs(args, expected), expected) == AdaptArgs(args, expected)
  {
  }

  /** Both handlers take the source name and one more text after the event. */
  const HandlerArity: nat := 2

  const MissingSource := "missing source supervisor name"

  /** The temporary copy: flagged as temporary, not killing the game on stop, difficulty overridden when given. */
  function TmpConfig(c: CharacterCfg, diff: string): (r: CharacterCfg)
    ensures r.overseerTmp && !r.killD2OnStop
    ensures r.difficulty == if diff != "" then ParseDifficulty(diff) else c.difficulty
    ensures r.(overseerTmp := c.overseerTmp, killD2OnStop := c.killD2OnStop, difficulty := c.difficulty) == c
  {
    var t := c.(overseerTmp := true, killD2OnStop := false);
    if diff != "" then t.(difficulty := ParseDifficulty(diff)) else t
  }

  /** Deriving the temporary copy again with the same override changes nothing. */
  lemma TmpConfigIdempotent(c: CharacterCfg, diff: string)
    ensures TmpConfig(TmpConfig(c, diff), diff) == TmpConfig(c, diff)
  {
  }

  /**
   * makeTmpCopy. The registry holds pointers, so the flags are set on the
   * stored entry itself before it is saved: a failed save leaves the
   * changed entry in the registry. `created` and `saveFailure` are what
   * CreateFromSource and SaveSupervisorConfig come back with.
   */
  method MakeTmpCopy(reg: Registry, source: string, diff: string, created: Created, saveFailure: Option<string>)
    returns (err: Option<string>)
    modifies reg
    ensures source == "" ==> err == Some(MissingSource) && reg.characters == old(reg.characters)
    ensures source != "" && created.CreateFailed? ==> err == Some(created.msg) && reg.characters == old(reg.characters)
    ensures source != "" && created.Copied? ==>
              err == saveFailure && reg.characters == old(reg.characters)[source + "_tmp" := TmpConfig(created.cfg, diff)]
  {
    if source == "" {
      return Some(MissingSource);
    }
    err := reg.CreateFromSource(source, "", created);
    if err.Some? {
      return err;
    }
    var tmp := source + "_tmp";
    var cfg := reg.characters[tmp];
    cfg := cfg.(overseerTmp := true, killD2OnStop := false);
    if diff != "" {
      cfg := cfg.(difficulty := ParseDifficulty(diff));
    }
    reg.characters := reg.characters[tmp := cfg];
    err := reg.SaveSupervisorConfig(tmp, cfg, saveFailure);
  }

  /** handleTmpCopy: the reply for the "tmp" command. */
  method HandleTmpCopy(reg: Registry, source: string, diff: string, created: Created, saveFailure: Option<string>)
    returns (reply: string)
    modifies reg
    ensures source == "" ==> reply == "Error: " + MissingSource
    ensures source != "" && created.CreateFailed? ==> reply == "Error: " + created.msg
    ensures source != "" && created.Copied? && saveFailure.Some? ==> reply == "Error: " + saveFailure.value
    ensures source != "" && created.Copied? && saveFailure.None? ==> reply == "Created tmp config: " + source + "_tmp"
    ensures source != "" && created.Copied? ==>
              reg.characters == old(reg.characters)[source + "_tmp" := TmpConfig(created.cfg, diff)]
    ensures source == "" || created.CreateFailed? ==> reg.characters == old(reg.characters)
  {
    var err := MakeTmpCopy(reg, source, diff, created, saveFailure);
    if err.Some? {
      return "Error: " + err.value;
    }
    return "Created tmp config: " + source + "_tmp";
  }

  /** handleCopy: the reply for the "copy" command. */
  method HandleCopy(reg: Registry, source: string, target: string, created: Created) returns (reply: string)
    modifies reg
    ensures created.CreateFailed? ==> reply == "Error: " + created.msg && reg.characters == old(reg.characters)
    ensures created.Copied? ==> reply == "Created new config: " + target
                                && reg.characters == old(reg.characters)[CopyName(source, target) := created.cfg]
  {
    var err := reg.CreateFromSource(source, target, created);
    if err.Some? {
      return "Error: " + err.value;
    }
    return "Created new config: " + target;
  }

  function UnknownReply(msg: string, supervisor: string): string {
    "no handler found for " + msg + "@" + supervisor
  }

  /**
   * TerminalMessageHandler: the reply sent back to the terminal, if any.
   * `created` and `saveFailure` are the outcomes of the configuration calls
   * a handler makes.
   */
  method TerminalMessageHandler(reg: Registry, msg: string, created: Created, saveFailure: Option<string>)
    returns (reply: Option<string>, panicked: bool)
    modifies reg
    ensures panicked <==> Parse(msg).IndexPanic?
    ensures Parse(msg).Empty? || Parse(msg).IndexPanic? ==> reply == None && reg.characters == old(reg.characters)
    ensures Parse(msg).Dispatch? && Parse(msg).cmd != "copy" && Parse(msg).cmd != "tmp" ==>
              reply == Some(UnknownReply(msg, Parse(msg).supervisor)) && reg.characters == old(reg.characters)
    ensures Parse(msg).Dispatch? && Parse(msg).cmd == "copy" ==>
              var a := AdaptArgs(Parse(msg).args, HandlerArity);
              && (created.CreateFailed? ==> reply == Some("Error: " + created.msg) && reg.characters == old(reg.characters))
              && (created.Copied? ==> reply == Some("Created new config: " + a[1])
                                      && reg.characters == old(reg.characters)[CopyName(a[0], a[1]) := created.cfg])
    ensures Parse(msg).Dispatch? && Parse(msg).cmd == "tmp" ==>
              var a := AdaptArgs(Parse(msg).args, HandlerArity);
              && (a[0] == "" ==> reply == Some("Error: " + MissingSource) && reg.characters == old(reg.characters))
              && (a[0] != "" && created.CreateFailed? ==> reply == Some("Error: " + created.msg) && reg.characters == old(reg.characters))
              && (a[0] != "" && created.Copied? ==>
                    reply == Some(if saveFailure.Some? then "Error: " + saveFailure.value else "Created tmp config: " + a[0] + "_tmp")
                    && reg.characters == old(reg.characters)[a[0] + "_tmp" := TmpConfig(created.cfg, a[1])])
  {
    var command := Parse(msg);
    if command.Empty? {
      return None, false;
    }
    if command.IndexPanic? {
      return None, true;
    }
    if command.cmd == "copy" {
      var a := AdaptArgs(command.args, HandlerArity);
      var r := HandleCopy(reg, a[0], a[1], created);
      return Some(r), false;
    } else if command.cmd == "tmp" {
      var a := AdaptArgs(command.args, HandlerArity);
      var r := HandleTmpCopy(reg, a[0], a[1], created, saveFailure);
      return Some(r), false;
    }
    return Some(UnknownReply(msg, command.supervisor)), false;
  }
}
