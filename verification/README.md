# BlockyArena matchmaking and match-state model

A Dafny model of two pieces of the BlockyArena minigame plugin:

- the **join command** (`CmdJoin`): work out which player is joining, refuse
  a player who is already playing, then look through the process-wide
  registry of game sessions for one that can be joined and whose team mode
  is the requested mode in lower case. Only when there is none is the arena
  dispatcher asked for an arena (using the optional arena name as a hint),
  the match rules parsed from the mode and the arena's start-point count,
  and a new session appended to the registry. The player is then handed to
  whichever session was chosen;
- the **per-session player bookkeeping** (`MatchState`): `recruit` appends a
  player to the ordered player list, snapshots its status, points the
  player directory at this game, clears its inventory, sets survival mode,
  refills health and food, switches spectator mode off and sends it to the
  arena lobby; `dismiss` restores the snapshot, clears the directory entry
  and switches spectator mode off; `eliminate` broadcasts the cause, makes
  the player a spectator at the spectator spawn and shows the elimination
  title, without delisting it; `analyze` cancels every damage event and
  sends the victim back to the lobby on void damage; `broadcast` messages
  every listed player in list order.

Files:

- `CaseFolding.dfy` — `String.toLowerCase` and `String.equalsIgnoreCase` on
  ASCII letters, with lowering proved idempotent and `equalsIgnoreCase`
  proved equivalent to comparing lowered strings.
- `Host.dfy` — the engine surface: player ids, the `Player` entity (one field
  per key the plugin offers), its `PlayerStatus` value, the `Chat` delivery
  log, arenas, and the `PlayerDirectory` (PlayerManager) as a
  `map<PlayerId, GameId>`.
- `MatchState.dfy` — the `Game` snapshot store, the shared `PlayerList`
  object that a match appends to in place, and the `MatchState` class,
  with pure status-transition functions (`Spectate`, `Recruited`,
  `Eliminated`, `Dismissed`) that specify what each method leaves a player in.
- `CmdJoin.dfy` — the session registry, the scan (`FirstJoinable`), getGame's
  decision (`Choose`) and the methods `GetGame` and `Execute`, with `Execute`
  specified by the pure `JoinOutcome`.

Collaborators that CmdJoin and MatchState call but do not define are
parameters or abstract state: the arena dispatcher's `findBy` and `TeamMode.parse` are
function parameters about which nothing is assumed; what `canJoin()` answers
is a session field that a new session leaves unconstrained; `GameSession.add`
is recorded as the list of players handed to the session.

Where guards might be expected, the model follows the code:

- recruit performs no capacity, lifecycle-state or double-join check, and
  cannot fail; the only double-join guard is the join command's directory
  check;
- dismiss does not check that the player belongs to the session, and after
  restoring the snapshot it applies `setSpectate(false)`, so health and food
  end up at their maximum rather than exactly as snapshotted;
- eliminate does not check whether the player is already a spectator;
- the registry scan tests `canJoin()` and the team mode's name, not a
  lifecycle state, and `findAny` is taken to return the first match;
- rule parsing cannot fail in the model: `TeamMode.parse` and its errors
  are defined outside CmdJoin.java and MatchState.java and are not modelled.

## Model

| member | source | states |
|---|---|---|
| `CaseFolding.Lower` | src/main/java/io/github/mrdarcychen/commands/CmdJoin.java:94 | lowering keeps the length and lowers every character in place |
| `CaseFolding.LowerIdempotent` | src/main/java/io/github/mrdarcychen/commands/CmdJoin.java:105 | lowering an already lowered mode again (inside the scan's criteria) changes nothing |
| `CaseFolding.CharsMatchIffLowerEqual` | src/main/java/io/github/mrdarcychen/games/states/MatchState.java:89 | equalsIgnoreCase's three-way per-character test holds exactly when the lowered characters agree |
| `CaseFolding.EqualsIgnoreCase` | src/main/java/io/github/mrdarcychen/games/states/MatchState.java:89 | equalsIgnoreCase implies equal lengths, and holds in both directions exactly when the lowered strings are equal |
| `CaseFolding.MatchingIffLowerEqual` | src/main/java/io/github/mrdarcychen/games/states/MatchState.java:89 | same length with every position matching ignoring case is, in both directions, equality of the two lowered strings |
| `Host.Chat.Send` | src/main/java/io/github/mrdarcychen/games/states/MatchState.java:101 | sending a message appends exactly one delivery to that player and nothing else |
| `Host.PlayerDirectory.IsPlaying` | src/main/java/io/github/mrdarcychen/commands/CmdJoin.java:90 | isPlaying holds exactly for players with a directory entry; `Recruit` leaves its player playing (setGame, MatchState.java:52) and `Dismiss` leaves it not playing (clearGame, MatchState.java:69), and `RecruitedPlayerIsRefused` / `DismissedPlayerMayJoin` carry that to the join guard |
| `Host.PlayerDirectory.SetGame` | src/main/java/io/github/mrdarcychen/games/states/MatchState.java:52 | the player's entry points at the game; every other entry is unchanged |
| `Host.PlayerDirectory.ClearGame` | src/main/java/io/github/mrdarcychen/games/states/MatchState.java:69 | the player's entry is removed; every other entry is unchanged |
| `Host.Player.Overwrite` | src/main/java/io/github/mrdarcychen/games/states/MatchState.java:68 | restoring a snapshot makes the whole player status equal to it |
| `MatchStates.Spectate` | src/main/java/io/github/mrdarcychen/games/states/MatchState.java:109-117 | all five spectator flags equal b, health and food are at maximum whatever b is, game mode, inventory and position untouched |
| `MatchStates.Recruited` | src/main/java/io/github/mrdarcychen/games/states/MatchState.java:54-64 | a recruited player has an empty inventory, survival mode, full health and food, every spectator flag off, and stands at the lobby spawn |
| `MatchStates.Eliminated` | src/main/java/io/github/mrdarcychen/games/states/MatchState.java:75-76 | an eliminated player has every spectator flag on, full health and food, stands at the spectator spawn, game mode and inventory untouched |
| `MatchStates.Dismissed` | src/main/java/io/github/mrdarcychen/games/states/MatchState.java:67-71 | a dismissed player has the snapshot's game mode, inventory and position (its own when there is no snapshot), every spectator flag off and full health and food |
| `MatchStates.Deliveries` | src/main/java/io/github/mrdarcychen/games/states/MatchState.java:100-102 | one delivery per listed player, the k-th going to the k-th listed player |
| `MatchStates.Game.AddSnapshot` | src/main/java/io/github/mrdarcychen/games/states/MatchState.java:51 | the store maps the player to its current status; other snapshots unchanged |
| `MatchStates.Game.RestoreSnapshotOf` | src/main/java/io/github/mrdarcychen/games/states/MatchState.java:68 | the player's status becomes the snapshot stored before the call, and is left as it was when none was stored; nothing is promised about the store afterwards |
| `MatchStates.MatchState.constructor` | src/main/java/io/github/mrdarcychen/games/states/MatchState.java:43-47 | a match state holds the given game and the very player-list object it was handed, not a copy |
| `MatchStates.PlayerList.Add` | src/main/java/io/github/mrdarcychen/games/states/MatchState.java:50 | the player is appended at the end of the shared list; earlier entries and their order are unchanged |
| `MatchStates.MatchState.Recruit` | src/main/java/io/github/mrdarcychen/games/states/MatchState.java:49-65 | the player is appended at the end of the shared list object (so every holder of the list sees it), its pre-join status is stored as its snapshot, the directory maps it to this game with other entries unchanged (so it is playing), it ends in the recruited status at the lobby, and it gets the sending-to-arena message; no capacity or state check |
| `MatchStates.MatchState.Dismiss` | src/main/java/io/github/mrdarcychen/games/states/MatchState.java:67-71 | the player ends in the dismissed status built from the snapshot stored before the call, its directory entry is removed (so it is no longer playing), and the player list is unchanged |
| `MatchStates.MatchState.Eliminate` | src/main/java/io/github/mrdarcychen/games/states/MatchState.java:73-78 | the list is unchanged (the player stays listed), every listed player receives the cause in list order, then the player becomes a spectator at the spectator spawn and receives the elimination title; no check for an existing spectator |
| `MatchStates.MatchState.ShowEliminateScreen` | src/main/java/io/github/mrdarcychen/games/states/MatchState.java:80-86 | the player receives the elimination title and nothing else is sent |
| `MatchStates.MatchState.Analyze` | src/main/java/io/github/mrdarcychen/games/states/MatchState.java:88-93 | the event is always cancelled; the victim moves to the lobby spawn exactly when the damage type equals "void" ignoring case, otherwise its position is unchanged; no other victim field changes |
| `MatchStates.MatchState.Broadcast` | src/main/java/io/github/mrdarcychen/games/states/MatchState.java:100-102 | the delivery log grows by exactly one delivery per listed player, in list order, and nothing else changes |
| `MatchStates.MatchState.SetSpectate` | src/main/java/io/github/mrdarcychen/games/states/MatchState.java:109-117 | the player's new status is its old status switched to spectator mode b with health and food refilled |
| `MatchStates.RecruitedForgetsPriorStatus` | src/main/java/io/github/mrdarcychen/games/states/MatchState.java:54-64 | whatever status two players had, recruitment leaves them in the same status |
| `MatchStates.SpectateLastWins` | src/main/java/io/github/mrdarcychen/games/states/MatchState.java:109-117 | switching spectator mode twice is the same as switching it once to the last value |
| `MatchStates.RecruitDismissRoundTrip` | src/main/java/io/github/mrdarcychen/games/states/MatchState.java:49-71 | recruit then dismiss gives back the pre-join status with spectator mode off and health and food refilled, and leaves a directory that had no entry for the player as it was |
| `MatchStates.EliminatedPlayerHearsCause` | src/main/java/io/github/mrdarcychen/games/states/MatchState.java:73-74 | a listed player that is eliminated receives its own elimination cause |
| `MatchStates.IsVoidDamage` | src/main/java/io/github/mrdarcychen/games/states/MatchState.java:89 | a damage type counts as void only if it has four characters, and exactly when its lower-case form is "void" |
| `Matchmaking.Session.constructor` | src/main/java/io/github/mrdarcychen/commands/CmdJoin.java:116 | a new session carries the parsed rules and the arena and has admitted no one |
| `Matchmaking.Session.Add` | src/main/java/io/github/mrdarcychen/commands/CmdJoin.java:99 | the player is handed to the session once, after those handed to it before; the session (its canJoin answer included), the player directory and the chat may change in any other way |
| `Matchmaking.Views` | src/main/java/io/github/mrdarcychen/commands/CmdJoin.java:107 | the scan sees each registered session's canJoin answer and team mode, position by position |
| `Matchmaking.Matches` | src/main/java/io/github/mrdarcychen/commands/CmdJoin.java:104-105 | a session meets the criteria only if canJoin() holds, and then its team-mode name is already in lower case |
| `Matchmaking.FirstJoinable` | src/main/java/io/github/mrdarcychen/commands/CmdJoin.java:104-110 | a found index is in range, its session is joinable under the lowered mode and no earlier one is; nothing is found exactly when no session matches |
| `Matchmaking.Choose` | src/main/java/io/github/mrdarcychen/commands/CmdJoin.java:103-121 | reuse happens exactly when some registered session matches and then names a matching one; a creation uses the arena findBy returned and rules parsed from the mode and that arena's start-point count; giving up happens exactly when nothing matches and findBy returns no arena |
| `Matchmaking.GetGame` | src/main/java/io/github/mrdarcychen/commands/CmdJoin.java:103-121 | on reuse returns the chosen registered session and leaves the registry unchanged; on creation returns a fresh session with the chosen arena and rules appended as the registry's only new entry; otherwise returns null with the registry unchanged; never more than one insertion and never a removal |
| `Matchmaking.ResolvePlayer` | src/main/java/io/github/mrdarcychen/commands/CmdJoin.java:70-83 | a player source naming a different player is rejected, a non-player source naming nobody is rejected, and otherwise the joining player is the source player or the named one |
| `Matchmaking.JoinOutcome` | src/main/java/io/github/mrdarcychen/commands/CmdJoin.java:69-101 | a join goes ahead exactly for a resolved player with a mode, absent from the directory, for whom getGame found or created a session, and then uses getGame's choice; a player naming another player gets the use-a-command-block notice, a missing target or mode is refused silently, a playing player gets the already-in-game notice, and no session and no arena gives the no-arena notice |
| `Matchmaking.Execute` | src/main/java/io/github/mrdarcychen/commands/CmdJoin.java:69-101 | a refused request returns empty, sends only its notice and leaves the registry, the directory and every session's admissions and canJoin answer unchanged; a reused session gets the player handed over once, a created session is appended with exactly that player, and the result is success; the no-arena case sends the no-arena notice |
| `Matchmaking.MatchesLoweredMode` | src/main/java/io/github/mrdarcychen/commands/CmdJoin.java:94-105 | with the mode lowered by execute and again by the criteria, a session matches exactly when it can be joined and its team mode equals the lowered mode |
| `Matchmaking.RecruitedPlayerIsRefused` | src/main/java/io/github/mrdarcychen/commands/CmdJoin.java:90-93 | a player whose directory entry recruit's setGame (MatchState.java:52) has just made is refused by a further join with the already-in-game notice, whatever the mode, hint and sessions |
| `Matchmaking.DismissedPlayerMayJoin` | src/main/java/io/github/mrdarcychen/commands/CmdJoin.java:90-101 | once dismiss's clearGame (MatchState.java:69) has removed a player's entry, a join for it gets getGame's decision: the chosen session, or the no-arena notice |
| `Matchmaking.ReuseIgnoresArenaHint` | src/main/java/io/github/mrdarcychen/commands/CmdJoin.java:107-112 | when a registered session matches, the decision is a reuse and is the same for any arena hint and any dispatcher |
| `Matchmaking.ModeIsCaseInsensitive` | src/main/java/io/github/mrdarcychen/commands/CmdJoin.java:94 | two requested modes with the same lower-case form give the same outcome |
| `Matchmaking.CreatedSessionIsReusedNext` | src/main/java/io/github/mrdarcychen/commands/CmdJoin.java:103-121 | after a request creates a session that is joinable under the mode, the next request for that mode joins it instead of creating another, whatever its hint |

## Left out

- Plugin bootstrap (`HuskyArena`: configuration directories, logging, command registration) is not part of this model: it is host wiring and file-system I/O.
- Command-argument parsing, permissions and the wording, colours and channels (chat or action bar) of messages and titles: each message is a symbolic `Message`, and delivery is an entry in the `Chat` log.
- Health and food are `double` values in the engine; the model only records whether each is at its maximum.
- `toLowerCase` is taken in a locale where ASCII letters lower as in English; Java's Unicode mappings and locale-specific mappings (for example the Turkish dotless i) are not modelled. `equalsIgnoreCase` does not depend on the locale.
- The internals of `TeamMode.parse`, `MatchRules`, `FullFledgedGameSession`, `GameSession.canJoin`, `GameSession.add`, `SessionRegistry`, `PlayerManager`, `PlayerSnapshot` and the arena dispatcher: their source is not part of this model. `parse` and `findBy` are unconstrained function parameters, so parse errors are not modelled; the team mode a session reports is taken from its rules.
- MatchStates.Game.RestoreSnapshotOf: a snapshot is modelled as the player's whole status, and restoring a player with no stored snapshot leaves it unchanged; `PlayerSnapshot` and `Game.restoreSnapshotOf` are defined outside CmdJoin.java and MatchState.java and are not modelled, so whether restoring removes the stored snapshot is not known and the model promises nothing about the store afterwards.
- Matchmaking.Session.Add: only the hand-over is promised; what the session then does with the player (presumably recruiting it, which enters it in the directory, sends it the arena message and may close canJoin) is defined outside CmdJoin.java and MatchState.java and is not modelled, so `Add` may change the session, the directory and the chat arbitrarily and a successful `Execute` promises nothing about them beyond the hand-over.
- Matchmaking.FirstJoinable: `findAny` may return any matching session; the model fixes it to the first match in registry order.
- The `(int)` cast of the start-point count is taken as exact.
- The `teamMode` field of `MatchState` is never read by the modelled operations and is omitted; of the match rules only the team mode's name is kept, since nothing else of them is read.
- Concurrency: the registry scan-then-insert and the directory check-then-recruit are single-threaded and unlocked in the source and are modelled as sequential steps.
- Removal of ended sessions from the registry and the match lifecycle transitions are defined outside CmdJoin.java and MatchState.java and are not modelled.
