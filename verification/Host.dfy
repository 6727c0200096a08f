/**
 * The surface of the host game engine and of the process-wide player
 * directory that the matchmaking core reads and writes: player identities,
 * a player's status record, the chat channel that delivers messages, arenas
 * and the player directory (PlayerManager).
 */
module Host {

  datatype Option<T> = None | Some(value: T)

  /** A player's unique id (a UUID in the engine). */
  type PlayerId = nat

  /** A game's identity as the player directory stores it. */
  type GameId = nat

  /** A place in a world that a player can be teleported to. */
  datatype Transform = Transform(world: string, x: int, y: int, z: int)

  datatype GameMode = Survival | Creative | Adventure | Spectator

  /**
   * Everything about a player that the core writes: the five spectator
   * flags, whether health and food are at their maximum, the game mode,
   * whether the inventory is empty, and the position.
   */
  datatype PlayerStatus = PlayerStatus(
    vanish: bool,
    vanishIgnoresCollision: bool,
    canFly: bool,
    isFlying: bool,
    invulnerable: bool,
    healthAtMax: bool,
    foodAtMax: bool,
    gameMode: GameMode,
    inventoryEmpty: bool,
    position: Transform)

  /** All five spectator flags equal b. */
  predicate SpectatorFlags(s: PlayerStatus, b: bool) {
    s.vanish == b && s.vanishIgnoresCollision == b && s.canFly == b && s.isFlying == b && s.invulnerable == b
  }

  /** A live player entity; every key the core offers is a field written in place. */
  class Player {
    const id: PlayerId
    var vanish: bool
    var vanishIgnoresCollision: bool
    var canFly: bool
    var isFlying: bool
    var invulnerable: bool
    var healthAtMax: bool
    var foodAtMax: bool
    var gameMode: GameMode
    var inventoryEmpty: bool
    var position: Transform

    constructor (id: PlayerId, s: PlayerStatus)
      ensures this.id == id && Status() == s
    {
      this.id := id;
      vanish, vanishIgnoresCollision, canFly, isFlying, invulnerable := s.vanish, s.vanishIgnoresCollision, s.canFly, s.isFlying, s.invulnerable;
      healthAtMax, foodAtMax, gameMode, inventoryEmpty, position := s.healthAtMax, s.foodAtMax, s.gameMode, s.inventoryEmpty, s.position;
    }

    /** The player's current status as a value. */
    function Status(): PlayerStatus
      reads this
    {
      PlayerStatus(vanish, vanishIgnoresCollision, canFly, isFlying, invulnerable,
                   healthAtMax, foodAtMax, gameMode, inventoryEmpty, position)
    }

    /** Writes back a whole status, as restoring a snapshot does. */
    method Overwrite(s: PlayerStatus)
      modifies this
      ensures Status() == s
    {
      vanish, vanishIgnoresCollision, canFly, isFlying, invulnerable := s.vanish, s.vanishIgnoresCollision, s.canFly, s.isFlying, s.invulnerable;
      healthAtMax, foodAtMax, gameMode, inventoryEmpty, position := s.healthAtMax, s.foodAtMax, s.gameMode, s.inventoryEmpty, s.position;
    }
  }

  /** What the core ever says to a player; the wording of each message is not modelled. */
  datatype Message =
    | Text(content: string)          // a caller-supplied text, such as an elimination cause
    | SendingTo(arenaName: string)   // "Sending you to <arena> ..." on recruitment
    | AlreadyInGame                  // join refused: the player is already playing
    | NoArenaAvailable               // join refused: no session and no arena
    | UseCommandBlock                // join refused: a player named another player
    | YouDied                        // the elimination title

  /** One message delivered to one player. */
  datatype Delivery = Delivery(to: PlayerId, msg: Message)

  /** The engine's message channel: the deliveries made so far, in order. */
  class Chat {
    var sent: seq<Delivery>

    constructor ()
      ensures sent == []
    {
      sent := [];
    }

    /** Player.sendMessage / sendTitle: deliver one message. */
    method Send(d: Delivery)
      modifies this
      ensures sent == old(sent) + [d]
    {
      sent := sent + [d];
    }
  }

  /**
   * An arena as the core sees it: its name, how many start points it has,
   * and its lobby and spectator spawns.
   */
  datatype Arena = Arena(name: string, startPoints: nat, lobbySpawn: Transform, spectatorSpawn: Transform)

  /** PlayerManager: which game each playing player is in. */
  class PlayerDirectory {
    var games: map<PlayerId, GameId>

    constructor ()
      ensures games == map[]
    {
      games := map[];
    }

    /** PlayerManager.isPlaying: the player has a directory entry. */
    function IsPlaying(p: PlayerId): (r: bool)
      reads this
      ensures r <==> p in games.Keys
    {
      p in games
    }

    /** PlayerManager.setGame: map p to g, no other entry changes. */
    method SetGame(p: PlayerId, g: GameId)
      modifies this
      ensures games == old(games)[p := g]
    {
      games := games[p := g];
    }

    /** PlayerManager.clearGame: drop p's entry, no other entry changes. */
    method ClearGame(p: PlayerId)
      modifies this
      ensures games == old(games) - {p}
    {
      games := games - {p};
    }
  }
}
