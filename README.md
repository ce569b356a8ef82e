# koolo: the bot's decision and retry machinery in Dafny

koolo is a Diablo II: Resurrected bot. It reads the game's memory, drives
the game window through a synthetic input device (the HID), and is
controlled through a web server and an "overseer" terminal. This project
models the small, sequential logic inside it and proves what that logic
promises:

- the throttled "open a town portal" step, the bounded ESC loop that closes
  all menus, and the step that puts a skill on the right mouse button;
- the game-session transitions of the game manager: leaving a game, starting
  a new one, creating and joining online games, the client's command line,
  the realm's region and the choice between a new client and a running one;
- the web server's start-admission rule, item-quality classes, drop counts,
  the inventory-lock grid of the settings form, the enabled/disabled run
  split, and one event of the websocket hub's client registry;
- the merge of a JSON update into a configuration, credential blanking, the
  screen capture with retries and the status filters of the overseer API;
- the overseer terminal's command parsing and dispatch, and the derivation
  of a temporary `_tmp` configuration;
- event shaping for the overseer (camel-case keys, event data, supervisor)
  and the overseer singleton;
- the leveling paladin's attack loop, key-binding check, skill reset rule,
  skill bindings and stat-point bands;
- the rejuvenation-belt legality check and the chain step that fixes it;
- the red/blue byte swap of a captured screenshot, in place on an array.

Collaborators are abstract:

- **The input device** is an append-only trace of events.
- **The game-memory reader** is a finite script of snapshots. Query *i*
  reads snapshot *i*; past the end, the last snapshot repeats.
- **Time** is a natural-number millisecond clock, passed in.
- **Configurations** are records in a registry map.
- **Calls whose outcome is not visible** (creating a configuration from a
  source, saving one, grabbing and encoding an image, listing processes)
  are parameters of the operations that make them.

Code that changes state step by step is modelled as classes and methods
with loops. Each such method is proved against a pure specification
function, and the properties are lemmas about that function.

Files, one module each:

- `common.dfy`: options, input events, the `Hid` trace, Go's `%d` and Go's
  `strings.Fields`.
- `config.dfy`: the character configuration and the registry.
- `v2_context.dfy`: the v2 execution context.
- `open_portal.dfy`, `close_all_menus.dfy`, `set_skill.dfy`: the steps.
- `game_manager.dfy`: the game manager.
- `http_server.dfy`, `websocket_hub.dfy`: the web server.
- `overseer_koolo_api.dfy`, `overseer_api.dfy`: the overseer-facing server files.
- `terminal_handler.dfy`, `overseer.dfy`: the overseer.
- `paladin_leveling.dfy`, `rejuv_tools.dfy`, `screenshot.dfy`: the
  character, the rejuvenation tools and the screenshot.

## Model

| member | source | states |
|---|---|---|
| OpenPortal.OpenPortalStep.constructor | internal/action/step/open_portal.go:16-21 | a new step has not started, has no fired Run (Go's zero time, long past), and keeps the portal key |
| OpenPortal.Observe | internal/action/step/open_portal.go:23-39 | a Status report is Completed or InProgress, never Failed; it is Completed iff the step already was, or no Run fired yet or more than 1 s passed since the last one, and some object is a portal |
| OpenPortal.OpenPortalStep.Status | internal/action/step/open_portal.go:23-39 | returns the report above; the status field moves to Completed only with a Completed report and otherwise keeps its value; it issues no input and does not touch lastRun |
| OpenPortal.OpenPortalStep.Run | internal/action/step/open_portal.go:41-53 | always returns nil; less than 2 s after the last fired Run it appends nothing and keeps lastRun; otherwise, and always when no Run fired yet, it appends the portal key press and then a right click at (300, 300), and sets lastRun to now |
| OpenPortal.ReplayKeepsCompletion | internal/action/step/open_portal.go:23-39 | over any sequence of calls, once a Status report is Completed every later report is Completed, the step's status stays Completed, and no report is Failed |
| OpenPortal.ReplayThrottles | internal/action/step/open_portal.go:41-53 | over any sequence of calls, fired Runs are at least 2 s apart, lastRun is the time of the last one, each adds exactly two input events, and Status calls add no input and keep lastRun |
| OpenPortal.ThrottleScenario | internal/action/step/open_portal.go:43-50 | a Run that fires, a second within 2 s, and a third 2 s or more after the first issue the portal input exactly twice |
| CloseAllMenus.CloseAllMenus | internal/v2/action/step/close_all_menus.go:11-30 | LastStep becomes "CloseAllMenus"; it returns nil after k ≤ 11 rounds exactly when the loop test before round k sees no menu (the entry snapshot, then the snapshot refreshed in the previous round); otherwise it returns "failed closing game menu" after 11 ESC rounds and a twelfth pause and refresh; the trace is exactly those rounds |
| CloseAllMenus.RoundsShape | internal/v2/action/step/close_all_menus.go:16-27 | k rounds form 3k effects with exactly k ESC presses, each right after a pause point and a refresh |
| CloseAllMenus.OutcomeEscapes | internal/v2/action/step/close_all_menus.go:21-26 | on either outcome at most 11 ESC presses are issued, all guarded; the failure trace has exactly 11 |
| SetSkill.SkillInput | internal/v2/action/step/set_skill.go:12-16 | at most one input; one exactly when the skill has a binding and is not on the right button, and then it is that binding's key press |
| SetSkill.SetSkillSettles | internal/v2/action/step/set_skill.go:13 | once the right button shows the skill, asking again presses nothing |
| SetSkill.SetSkill | internal/v2/action/step/set_skill.go:8-17 | LastStep becomes "SetSkill" and the trace grows by exactly the input above |
| GameManager.Wait | internal/game/manager.go:45-50 | a bounded polling loop finds the first of its n polls that sees the awaited state, or reports that none of them does |
| GameManager.MemoryReader.WaitFor | internal/game/manager.go:99-104 | the polling loop answers whether the state was seen, and consumes exactly the polls up to the first one that saw it (all n when none did) |
| GameManager.HalfTowardZero | internal/game/manager.go:43 | half the game-area width as Go divides: the remainder is 0 or 1 for a non-negative width and 0 or -1 for a negative one |
| GameManager.Manager.ExitGame | internal/game/manager.go:37-70 | its error, the input it issues and the polls it makes are those of the exit specification, for every script of snapshots |
| GameManager.Manager.ExitNicely | internal/game/manager.go:54-69 | the ten-round loop issues the input and the error of the round specification |
| GameManager.Manager.ExitRoundStep | internal/game/manager.go:55-66 | one round: with the quit menu open it clicks quit and polls up to five times; unless it saw the game left it presses ESC |
| GameManager.ExitWhenNotInGame | internal/game/manager.go:38-40 | not in game: nil after one poll, with no input |
| GameManager.ExitRoundFacts | internal/game/manager.go:55-66 | a round makes 1 to 6 polls; a round that saw the game left ends right after a poll that saw it; otherwise it pressed ESC exactly once; a game never left over its polls is not left; a round sees the game left exactly when the quit menu is open and one of its five polls finds the character out of the game |
| GameManager.ExitRoundsResult | internal/game/manager.go:54-69 | the rounds end in nil right after a poll that saw the game left, or in "error exiting game! Timeout", within 6 polls per round |
| GameManager.ExitRoundsEscapes | internal/game/manager.go:54-67 | rounds that time out have pressed ESC once per round |
| GameManager.ExitRoundsStuck | internal/game/manager.go:54-69 | a game that stays entered over all the polls of the rounds ends in the timeout error |
| GameManager.ExitGameResult | internal/game/manager.go:37-70 | ExitGame returns nil right after a poll that saw the game left, or the timeout error, and polls at most 66 times; when one of the first five polls finds the character out of the game, it returns nil at the first such poll, every earlier snapshot being in game |
| GameManager.ExitGameLeavesEarly | internal/game/manager.go:42-49 | in game, with one of the five polls after the first ESC and quit click finding the character out: ExitGame ends with nil after exactly those two inputs, at the first poll that saw it, with every snapshot before it in game |
| GameManager.ExitGameEscapes | internal/game/manager.go:42-67 | a timed-out ExitGame has pressed ESC 11 times: the first fast exit and one per round |
| GameManager.ExitGameStuck | internal/game/manager.go:45-69 | a game that stays entered over all 66 polls ends in "error exiting game! Timeout" |
| GameManager.Manager.NewGame | internal/game/manager.go:72-107 | its error, the input it issues and the polls it makes are those of the new-game specification for the configured difficulty |
| GameManager.NewGameResult | internal/game/manager.go:72-107 | in game: "character still in a game" with no input; otherwise a click at (600, 650) and one on the difficulty button (640 by 311, 355 or 403), whether or not the character screen was seen, then nil exactly when a poll saw the game entered, and "timeout" exactly when the last 12 polls all saw it outside a game; at most 43 polls |
| GameManager.NewGameWithResult | internal/game/manager.go:77-106 | the same for any bounds on the character-screen and game waits: nil only after a poll that saw the game entered, "timeout" only after as many polls as the bound that all saw it outside a game |
| GameManager.NewGameIgnoresCharSelect | internal/game/manager.go:77-97 | the input NewGame issues does not depend on what the character-screen polls saw |
| GameManager.Manager.ClearGameNameOrPasswordField | internal/game/manager.go:109-113 | appends exactly 16 backspace presses |
| Common.BackspacesCount | internal/game/manager.go:109-113 | the cleared field presses backspace n times and no other key |
| GameManager.Manager.TypeText | internal/game/manager.go:137-139 | appends one key press per character of the text, in order |
| Common.TypeKeysAt | internal/game/manager.go:137-139 | the i-th key press types the i-th character |
| Common.TypeKeysCount | internal/game/manager.go:137-139 | typing a text presses each character's key once per occurrence and no other key |
| GameManager.FieldEntryCount | internal/game/manager.go:134-139 | clearing and typing a field presses backspace 16 times and each character's key once per occurrence |
| GameManager.Manager.AwaitGame | internal/game/manager.go:153-160 | up to 30 polls; nil exactly when one saw the game entered, else the given timeout error |
| GameManager.Manager.CreateOnlineGame | internal/game/manager.go:115-161 | the game name is the template followed by the counter in decimal and is returned on both outcomes; the input is the create tab, the difficulty, the name box, the password box only when a password is set, and Enter; the error is "error creating game! Timeout" exactly when no poll saw the game |
| GameManager.CreateEventsCount | internal/game/manager.go:115-151 | creating presses backspace 32 times with a password and 16 without, Enter once, and each character's key once per occurrence in the name and the password |
| GameManager.GameNameCounter | internal/game/manager.go:136 | the game name starts with the template and ends with decimal digits that read back as the counter |
| Common.DecimalRoundTrip | internal/game/manager.go:136 | reading back the digits "%d" writes gives the number |
| GameManager.Manager.JoinOnlineGame | internal/game/manager.go:163-196 | the input is the join tab, the name box, the password box and Enter; the error is "error joining game! Timeout" exactly when no poll saw the game |
| GameManager.JoinEventsCount | internal/game/manager.go:163-186 | joining presses backspace 32 times, Enter once, and each character's key once per occurrence in the name and the password |
| GameManager.LaunchArgsShape | internal/game/manager.go:261-278 | the command line starts with "-uid osi" for TokenAuth, "-username u -password p -address realm" for UsernamePassword and nothing otherwise, and continues with words that hold exactly the non-space characters of the extra arguments, in order |
| GameManager.LaunchArgsOfWords | internal/game/manager.go:275-278 | extra arguments written as words with single spaces come out as those words |
| Common.FieldsOfJoin | internal/game/manager.go:275 | splitting words joined by spaces gives the words back |
| Common.FieldsKeepText | internal/game/manager.go:275 | the split keeps every non-space character, in order, and only those |
| GameManager.Region | internal/game/manager.go:298-308 | the region is US exactly for the US host, KR exactly for the KR host, and EU for everything else |
| GameManager.FirstClient | internal/game/manager.go:383-392 | the first process whose name reads as D2R.exe, or none; processes whose name cannot be read are skipped |
| GameManager.StartGameOrUseExisting | internal/game/manager.go:370-418 | only "SorcLeveling" looks for a running client; a failed process listing is an error; the first D2R.exe is used unless none was found or its id is 0, in which case a new client is started |
| HttpServer.QualityClassCases | internal/server/http_server.go:199-218 | the fallback class is given exactly to texts outside the seven quality names, and the seven names get seven different classes |
| HttpServer.Containss | internal/server/http_server.go:224-231 | true exactly when the item occurs in the slice |
| HttpServer.StartSupervisor | internal/server/http_server.go:349-387 | nothing happens without a configuration; the start is refused exactly when another supervisor is Starting and either one uses TokenAuth; otherwise Start is called |
| HttpServer.GetStatusData | internal/server/http_server.go:252-270 | both maps have exactly the available supervisors as keys, hold each one's status, and count its drops as the length of the list, or 0 when there is none; of each supervisor's statistics only its status and drop list are modelled |
| HttpServer.ApplyInventoryLock | internal/server/http_server.go:559-567 | the grid keeps its shape, and cell [y][x] is 0 when the form has the key "inventoryLock[y][x]", else 1 |
| HttpServer.LockKeyInjective | internal/server/http_server.go:561 | different cells have different form keys |
| HttpServer.PartitionRuns | internal/server/http_server.go:687-697 | the enabled runs are the configured runs in their order; the disabled runs are exactly the available runs that are not enabled, each once, and none of them is enabled |
| WebSocketHub.Client.constructor | internal/server/http_server.go:100 | a new client has an empty, open send queue |
| WebSocketHub.Client.TrySend | internal/server/http_server.go:82-86 | a non-blocking send queues the message exactly when fewer than 256 are waiting |
| WebSocketHub.Hub.Register | internal/server/http_server.go:73-74 | registering adds the client and keeps every registered queue open and within capacity |
| WebSocketHub.Hub.Unregister | internal/server/http_server.go:75-79 | a registered client is removed and its queue closed; an unknown client changes nothing |
| WebSocketHub.Hub.Broadcast | internal/server/http_server.go:80-89 | every client with room gets the message queued and stays; every client with a full queue is closed and removed |
| OverseerKooloApi.Lookup | internal/server/overseer_koolo_api.go:311-314 | the field of the given name, or none when no field has it |
| OverseerKooloApi.SetScalar | internal/server/overseer_koolo_api.go:329-339 | a scalar is set only from a JSON value of the field's own type, or from a number into an int64 field; a mismatch error names the field; JSON null panics |
| OverseerKooloApi.Trunc | internal/server/overseer_koolo_api.go:332 | int64(f) truncates toward zero |
| OverseerKooloApi.UpdateField | internal/server/overseer_koolo_api.go:316-340 | one update key succeeds exactly when the field is settable and, recursively, its nested map or scalar value applies; on success the field is the specified update; on a failure a field not exported, a struct given anything but an object, or a scalar that cannot be set is returned unchanged, and a struct given an object keeps its name and flag with each nested field left as a failed merge leaves it |
| OverseerKooloApi.UpdateConfigField | internal/server/overseer_koolo_api.go:309-343 | the merge succeeds exactly when every key that names a field applies, and then gives the specified merge; on an error, unnamed fields are unchanged and each named field is unchanged (not reached), fully updated, or, for the one that failed, left as the failing UpdateField leaves it, recursively down nested structs |
| OverseerKooloApi.UnknownKeysIgnored | internal/server/overseer_koolo_api.go:311-314 | a key that names no field neither fails the merge nor changes it |
| OverseerKooloApi.EmptyUpdateIsIdentity | internal/server/overseer_koolo_api.go:309-343 | an empty update succeeds and changes nothing |
| OverseerKooloApi.ApplyKeepsShape | internal/server/overseer_koolo_api.go:320-340 | a successful merge keeps every field's name, exported flag and type, down through nested structs |
| OverseerKooloApi.NumberIntoInt64 | internal/server/overseer_koolo_api.go:331-332 | a JSON number into an int64 field is stored truncated toward zero |
| OverseerKooloApi.StringIntoNamedStringPanics | internal/server/overseer_koolo_api.go:334-339 | a JSON string into a named string type is not converted, and the Set panics |
| OverseerKooloApi.Sanitized | internal/server/overseer_koolo_api.go:354-361 | the copy has username, password and token blank, and every other field as in the original |
| OverseerKooloApi.SanitizedIdempotent | internal/server/overseer_koolo_api.go:354-361 | blanking twice is blanking once |
| OverseerKooloApi.GetSanitizedConfigs | internal/server/overseer_koolo_api.go:345-352 | the result has exactly the registry's keys, each with the sanitised configuration |
| OverseerKooloApi.AttemptErrors | internal/server/overseer_koolo_api.go:264-285 | n failed attempts give n error texts, the j-th one "attempt j+1: " followed by that attempt's error |
| OverseerKooloApi.FirstGood | internal/server/overseer_koolo_api.go:264-281 | the first attempt, among the allowed ones, whose encoding has at least 9999 bytes, or none |
| OverseerKooloApi.RetryCapture | internal/server/overseer_koolo_api.go:262-285 | the retry loop returns the first good encoding; with none, it collects one error per attempt, in order |
| OverseerKooloApi.CombineErrors | internal/server/overseer_koolo_api.go:288-293 | the combined text is the header followed by one line per error |
| OverseerKooloApi.CaptureImageWithRetry | internal/server/overseer_koolo_api.go:261-297 | returns the first encoding of at least 9999 bytes among maxRetries attempts; with none, the header and one numbered line per attempt; with maxRetries ≤ 0, "unknown error" |
| OverseerKooloApi.LinesEmpty | internal/server/overseer_koolo_api.go:288 | the joined error text is empty exactly when there are no errors |
| OverseerKooloApi.AttemptLinesCount | internal/server/overseer_koolo_api.go:289-292 | the joined text of n failed attempts has exactly n line breaks, one per attempt |
| OverseerKooloApi.GameDataSupervisors | internal/server/overseer_koolo_api.go:55-65 | game data is broadcast for exactly the supervisors that are in game or paused |
| OverseerKooloApi.ShareScreen | internal/server/overseer_koolo_api.go:229-259 | no name: bad request; an unknown supervisor: no reply; a supervisor neither in game, starting nor paused: "not ready'"; otherwise its character is captured with ten attempts, answered with an image exactly when some attempt gave a good encoding (the first such), else with the combined error text; a ready supervisor without a configuration panics |
| OverseerApi.GetSanitizedConfigs | internal/server/overseer_api.go:22-30 | the result has exactly the registry's keys; each entry has blank credentials and every other field equal to the source entry's |
| TerminalHandler.Parse | internal/overseer/terminal_message_handler.go:18-36 | a message with no words does nothing; one with exactly one word panics at args[1]; otherwise the words are the supervisor, the command and the arguments, in order |
| TerminalHandler.ParseOfWords | internal/overseer/terminal_message_handler.go:19-36 | words typed with single spaces come back as supervisor, command and arguments |
| TerminalHandler.BlankIsEmpty | internal/overseer/terminal_message_handler.go:19-23 | a message of white space only does nothing |
| TerminalHandler.OneWordPanics | internal/overseer/terminal_message_handler.go:30-31 | a one-word message, such as a bare supervisor name, panics |
| TerminalHandler.AdaptArgs | internal/overseer/terminal_message_handler.go:55-62 | the arguments are exactly as many as the handler expects: the given ones first, padded with "" or cut off |
| TerminalHandler.AdaptArgsIdempotent | internal/overseer/terminal_message_handler.go:58-62 | adapting again changes nothing |
| TerminalHandler.TmpConfig | internal/overseer/terminal_message_handler.go:120-129 | the temporary copy is flagged as temporary, does not kill the game on stop, takes the override difficulty only when one is given, and keeps everything else |
| TerminalHandler.TmpConfigIdempotent | internal/overseer/terminal_message_handler.go:120-129 | deriving the copy again with the same override changes nothing |
| TerminalHandler.MakeTmpCopy | internal/overseer/terminal_message_handler.go:110-132 | no source: "missing source supervisor name" and no change; a failed copy: its error and no change; otherwise source + "_tmp" holds the temporary copy, even when the save then fails, and the save's error is returned |
| TerminalHandler.HandleTmpCopy | internal/overseer/terminal_message_handler.go:74-83 | replies "Error: " + the error, or "Created tmp config: " + source + "_tmp" |
| TerminalHandler.HandleCopy | internal/overseer/terminal_message_handler.go:85-92 | replies "Error: " + the error with no change, or "Created new config: " + target with the copy stored |
| TerminalHandler.TerminalMessageHandler | internal/overseer/terminal_message_handler.go:18-43 | empty: nothing; one word: panic with no reply and no change; "copy" and "tmp" go to their handlers with two adapted arguments; anything else replies "no handler found for " + message + "@" + supervisor |
| Config.ParseDifficulty | internal/overseer/terminal_message_handler.go:76 | the difficulty keeps the override text, and the three known names are told apart |
| Config.CopyName | internal/overseer/terminal_message_handler.go:115-120 | a copy without a target name is stored under source + "_tmp" |
| Overseer.ToCamelCase | internal/overseer/overseer.go:108-113 | "" stays ""; an ASCII first byte is lower-cased and the rest kept at the same length; a non-ASCII first byte becomes U+FFFD |
| Overseer.ToCamelCaseIdempotent | internal/overseer/overseer.go:108-113 | on names that start with an ASCII byte, applying it twice is applying it once |
| Overseer.ExtractEventData | internal/overseer/overseer.go:84-98 | the keys are exactly the camel-cased names of the fields other than BaseEvent; each key holds the value of the last field with that key; an unexported field makes it panic |
| Overseer.GetSupervisor | internal/overseer/overseer.go:101-106 | the event's supervisor, or "" when the event has no Supervisor method |
| Overseer.CreateBroadcastMessage | internal/overseer/overseer.go:72-81 | the message carries the event type, the supervisor, the given time and the event data: keys the camel-cased names of the included fields, each holding the value of the last field with that key; no message when an included field is unexported |
| Overseer.Singleton.Setup | internal/overseer/overseer.go:54-64 | only the first call creates the instance, from its own arguments; later calls return it unchanged; no error |
| Overseer.Singleton.GetInstance | internal/overseer/overseer.go:67-69 | the current instance, none before Setup |
| Overseer.FirstSetupWins | internal/overseer/overseer.go:54-64 | two setups give the same instance, built from the first call's arguments |
| PaladinLeveling.KillMonsterSequence | internal/v2/character/paladin_leveling.go:43-98 | always returns nil, and issues exactly the actions of the attack specification for the turns of the script |
| PaladinLeveling.AttackRunsBounded | internal/v2/character/paladin_leveling.go:55-65 | no unit is attacked in more than ten rounds in a row, because the counter resets on a new target and stops at ten |
| PaladinLeveling.LeadRunBound | internal/v2/character/paladin_leveling.go:55-65 | after k rounds on a unit at most 10 − k more follow on it |
| PaladinLeveling.HammerNeverRepeats | internal/v2/character/paladin_leveling.go:75-84 | with Blessed Hammer learned, a unit is never attacked in two turns in a row |
| PaladinLeveling.RandomMoveIsLast | internal/v2/character/paladin_leveling.go:75-83 | a random move ends the sequence and happens only on the hammer branch against a living monster |
| PaladinLeveling.AttackShapes | internal/v2/character/paladin_leveling.go:73-92 | for every i, the i-th action comes from turn k + i and targets that turn's unit: with Blessed Hammer learned an attack is 5 attacks at 2 to 7 under Concentration, otherwise 1 attack (Zeal learned) or 5 (not learned) at 1 to 3 under Holy Fire; the acting turn found its monster and passed the pre-battle checks; a random move only in the hammer branch, on a monster still alive |
| PaladinLeveling.CheckKeyBindings | internal/v2/character/paladin_leveling.go:26-41 | the required skills without a binding, in order; only the town-portal tome is required |
| PaladinLeveling.UnboundMembers | internal/v2/character/paladin_leveling.go:30-34 | a skill is reported missing exactly when it is required and has no binding |
| PaladinLeveling.ShouldResetSkills | internal/v2/character/paladin_leveling.go:124-132 | true exactly at level 21 or more with Holy Fire above level 10 |
| PaladinLeveling.ShouldResetMonotone | internal/v2/character/paladin_leveling.go:126 | a reset that is due stays due at higher levels |
| PaladinLeveling.SkillsToBind | internal/v2/character/paladin_leveling.go:134-165 | Vigor exactly from level 6, Holy Shield exactly from 24; main skill Blessed Hammer (learned and level 18), else Zeal if learned, else the attack; aura Concentration, else Holy Fire, else Might; no skill twice, and Vigor before Holy Shield before the aura |
| PaladinLeveling.StatPoints | internal/v2/character/paladin_leveling.go:167-194 | strength, vitality and energy always have targets, energy 0; dexterity has none exactly in the band from 21 to 29 |
| PaladinLeveling.StatPointsMonotone | internal/v2/character/paladin_leveling.go:171-190 | strength and vitality targets never drop as the level grows |
| PaladinLeveling.DexterityMonotone | internal/v2/character/paladin_leveling.go:171-190 | where dexterity has a target, it never drops as the level grows |
| RejuvTools.IsCarryingIllegalRejuvs | internal/action/sp_rejuv_tools.go:32-45 | never illegal when the belt allows rejuvenation potions; illegal exactly when it allows none and holds some |
| RejuvTools.NoRowsNoRejuvs | internal/action/sp_rejuv_tools.go:33 | a belt without rows allows no rejuvenation potions, whatever the columns say |
| RejuvTools.Drinks | internal/action/sp_rejuv_tools.go:20-23 | n drinks of a rejuvenation potion, nothing else |
| RejuvTools.EnsureNoIllegalRejuvs | internal/action/sp_rejuv_tools.go:9-30 | nothing when the belt is legal; otherwise every rejuvenation potion in the belt is drunk, then exactly one vendor refill is returned |
| Screenshot.SwapRB | internal/game/screenshot.go:58-65 | every pixel has its first and third byte exchanged and its second and fourth kept |
| Screenshot.SwapRBInvolution | internal/game/screenshot.go:63 | swapping twice gives the original bytes back |
| Screenshot.PixelIndexInBounds | internal/game/screenshot.go:61 | idx = y·Stride + x·4 with Stride = 4w is the start of pixel y·w + x, and its four bytes lie inside the w·h·4 buffer |
| Screenshot.SwapRedBlue | internal/game/screenshot.go:59-65 | the nested loop leaves the array equal to the swap of its old contents |
| Screenshot.ToRGBA | internal/game/screenshot.go:42-65 | a fresh image of the buffer's w·h·4 bytes holding the swapped buffer |
| Screenshot.ScreenshotWithRelease | internal/game/screenshot.go:74-162 | returns no image and no error |

## Left out

- Windows and OS calls are not modelled. This covers killing processes, starting the client, DPAPI token encryption, registry writes, GDI capture and the window search.
- StartGameOrUseExisting: the window-handle search after a running client is found is left out, because EnumWindows is a foreign call. So the "couldn't find HWND" error is not produced.
- HTTP handlers, templates, JSON and JPEG encoding, CORS headers and form parsing are I/O adapters. Only the decisions inside them are modelled: the form as a set of keys, the manager's answers as maps.
- Concurrency is not modelled: the websocket read and write pumps, the endless broadcast loops with their sleeps, and event-channel sends. The hub is modelled one event at a time.
- WebSocketHub.Hub.Register: requires an open client within capacity, as the websocket handler creates them. The client's connection and its pump draining the queue are not modelled.
- Sleeps and clocks are left out: the game-manager loops have no time, step throttles take `now` as a parameter, and the broadcast timestamp is a parameter.
- OpenPortal: the shared basicStep (newBasicStep, LastRun, tryTransitionStatus) is not part of this model. A new step is taken to start NotStarted with the zero time as its last run, and the transition to Completed to set the status.
- The memory reader and the capture attempts are finite scripts whose last entry repeats. An oracle that changes forever after a given query is not expressible.
- GameManager.Manager.ExitGame: the quit-button click at (GameAreaSizeX / 2, int(GameAreaSizeY / 2.2)) keeps its y coordinate as an opaque number, because the float division is not modelled. The x coordinate is Go's integer division, rounded toward zero.
- Difficulty is a datatype of the three known names plus any other text. Buttons for an unknown difficulty are clicked at (0, 0), the zero value of a missing map entry.
- The registry is modelled as a map of configuration values. config.CreateFromSource and SaveSupervisorConfig are not part of this model: their outcomes are parameters. A successful copy is taken to store the loaded configuration under its name.
- A nil configuration pointer is modelled only where it is reachable from a modelled input: ShareScreen on a ready supervisor without an entry. The game manager's own configuration is given as a record.
- Go map iteration order is unspecified. Loops over maps pick an arbitrary remaining key, and the run partition's disabled order is not fixed.
- OverseerKooloApi.UpdateConfigField: FieldByName's promotion of fields of embedded structs is not modelled, so a struct is its own field list. Overflow of the int64 conversion of a large float is not modelled.
- The remaining reflection mechanics are not modelled; the handlers' arity is the constant 2.
- The server package does not compile as a whole: two of its files define the same functions. Each file is modelled on its own, so getSanitizedConfigs appears in the modules of both files.
- PaladinLeveling: preBattleChecks, PrimaryAttack and RandomMovement are opaque. Each turn's outcomes are given by the script, and past its end the selector finds nothing. KillDiablo is left out because of its wall-clock timeout. BuffSkills, SkillPoints and the other paladin members are not modelled.
- The route scripts, the overseer's HTTP client, the logger and the event constructors are not part of this model.
- The per-character event data is kept as text per field; what JSON encoding makes of each value is not modelled.
