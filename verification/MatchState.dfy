/**
 * The per-session player bookkeeping of a match: admitting a player
 * (recruit), letting one go (dismiss), knocking one out (eliminate),
 * handling damage (analyze) and messaging everyone (broadcast).
 *
 * Each operation writes the player entity in place, the session's ordered
 * player list, the game's snapshot store and the process-wide player
 * directory. The status the player ends up in is described by the pure
 * transition functions at the top of the module.
 */
module MatchStates {
  import opened Host
  import opened CaseFolding

  /** setSpectate(p, b): the five spectator flags become b; health and food are refilled whatever b is. */
  function Spectate(s: PlayerStatus, b: bool): (r: PlayerStatus)
    ensures SpectatorFlags(r, b) && r.healthAtMax && r.foodAtMax
    ensures r.gameMode == s.gameMode && r.inventoryEmpty == s.inventoryEmpty && r.position == s.position
  {
    s.(healthAtMax := true, foodAtMax := true,
       vanish := b, vanishIgnoresCollision := b, canFly := b, isFlying := b, invulnerable := b)
  }

  /** The status recruit leaves a player in: match-ready, standing in the lobby. */
  function Recruited(s: PlayerStatus, lobby: Transform): (r: PlayerStatus)
    ensures r.inventoryEmpty && r.gameMode == Survival
    ensures r.healthAtMax && r.foodAtMax
    ensures SpectatorFlags(r, false)
    ensures r.position == lobby
  {
    Spectate(s.(inventoryEmpty := true, gameMode := Survival, healthAtMax := true), false).(position := lobby)
  }

  /** The status eliminate leaves a player in: a refilled spectator at the spectator spawn. */
  function Eliminated(s: PlayerStatus, spectatorSpawn: Transform): (r: PlayerStatus)
    ensures SpectatorFlags(r, true) && r.healthAtMax && r.foodAtMax
    ensures r.position == spectatorSpawn
    ensures r.gameMode == s.gameMode && r.inventoryEmpty == s.inventoryEmpty
  {
    Spectate(s, true).(position := spectatorSpawn)
  }

  /**
   * The status dismiss leaves a player in: the snapshot, when the store has
   * one, with spectator mode switched off on top of it.
   */
  function Dismissed(s: PlayerStatus, snapshot: Option<PlayerStatus>): (r: PlayerStatus)
    ensures SpectatorFlags(r, false) && r.healthAtMax && r.foodAtMax
    ensures var base := if snapshot.Some? then snapshot.value else s;
            r.gameMode == base.gameMode && r.inventoryEmpty == base.inventoryEmpty && r.position == base.position
  {
    Spectate(if snapshot.Some? then snapshot.value else s, false)
  }

  function Lookup(store: map<PlayerId, PlayerStatus>, p: PlayerId): Option<PlayerStatus> {
    if p in store then Some(store[p]) else None
  }

  /** What broadcast delivers: one message to each listed player, in list order. */
  function Deliveries(players: seq<Player>, msg: Message): (r: seq<Delivery>)
    ensures |r| == |players|
    ensures forall k :: 0 <= k < |players| ==> r[k] == Delivery(players[k].id, msg)
  {
    if players == [] then []
    else Deliveries(players[..|players| - 1], msg) + [Delivery(players[|players| - 1].id, msg)]
  }

  /** analyze's test: the damage type's name equals "void" ignoring case, that is, it lowers to "void". */
  function IsVoidDamage(damageType: string): (r: bool)
    ensures r ==> |damageType| == 4
    ensures r <==> Lower(damageType) == "void"
  {
    EqualsIgnoreCase(damageType, "void")
  }

  /** The game a match belongs to: its id, its arena, and its store of pre-join snapshots. */
  class Game {
    const id: GameId
    const arena: Arena
    var snapshots: map<PlayerId, PlayerStatus>

    constructor (id: GameId, arena: Arena)
      ensures this.id == id && this.arena == arena && snapshots == map[]
    {
      this.id := id;
      this.arena := arena;
      snapshots := map[];
    }

    /** addSnapshot(new PlayerSnapshot(p)): remember p's current status under p's id. */
    method AddSnapshot(p: Player)
      modifies this
      ensures snapshots == old(snapshots)[p.id := p.Status()]
    {
      snapshots := snapshots[p.id := p.Status()];
    }

    /**
     * restoreSnapshotOf(p): put back p's remembered status, if there is one.
     * Nothing is promised about the store afterwards.
     */
    method RestoreSnapshotOf(p: Player)
      modifies this, p
      ensures p.Status() == if p.id in old(snapshots) then old(snapshots)[p.id] else old(p.Status())
    {
      if p.id in snapshots {
        p.Overwrite(snapshots[p.id]);
      }
    }
  }

  /**
   * The list of players a match keeps. It is shared with whoever handed it
   * to the match, so an append is seen by every holder.
   */
  class PlayerList {
    var elems: seq<Player>

    constructor (elems: seq<Player>)
      ensures this.elems == elems
    {
      this.elems := elems;
    }

    /** List.add: append at the end. */
    method Add(p: Player)
      modifies this
      ensures elems == old(elems) + [p]
    {
      elems := elems + [p];
    }
  }

  /** A damage event; the core only ever cancels it. */
  class DamageEvent {
    var cancelled: bool

    constructor ()
      ensures !cancelled
    {
      cancelled := false;
    }
  }

  /** The state of one match: its game, its ordered player list and the shared directory and chat. */
  class MatchState {
    const game: Game
    const directory: PlayerDirectory
    const chat: Chat
    const players: PlayerList

    constructor (game: Game, players: PlayerList, directory: PlayerDirectory, chat: Chat)
      ensures this.game == game && this.players == players
      ensures this.directory == directory && this.chat == chat
    {
      this.game := game;
      this.players := players;
      this.directory := directory;
      this.chat := chat;
    }

    /**
     * Admits a player: appends it to the list, snapshots its status, points
     * the directory at this game, makes it match-ready and sends it to the
     * lobby. No capacity, state or duplicate check is made here.
     */
    method Recruit(player: Player)
      modifies players, game, directory, player, chat
      ensures players.elems == old(players.elems) + [player]
      ensures game.snapshots == old(game.snapshots)[player.id := old(player.Status())]
      ensures directory.games == old(directory.games)[player.id := game.id]
      ensures directory.IsPlaying(player.id)
      ensures player.Status() == Recruited(old(player.Status()), game.arena.lobbySpawn)
      ensures chat.sent == old(chat.sent) + [Delivery(player.id, SendingTo(game.arena.name))]
    {
      players.Add(player);
      game.AddSnapshot(player);
      directory.SetGame(player.id, game.id);
      player.inventoryEmpty := true;
      player.gameMode := Survival;
      player.healthAtMax := true;
      SetSpectate(player, false);
      chat.Send(Delivery(player.id, SendingTo(game.arena.name)));
      player.position := game.arena.lobbySpawn;
    }

    /** Lets a player go: restores its snapshot, clears its directory entry and switches spectator mode off. */
    method Dismiss(player: Player)
      modifies game, directory, player
      ensures player.Status() == Dismissed(old(player.Status()), Lookup(old(game.snapshots), player.id))
      ensures directory.games == old(directory.games) - {player.id}
      ensures !directory.IsPlaying(player.id)
      ensures players.elems == old(players.elems)
    {
      game.RestoreSnapshotOf(player);
      directory.ClearGame(player.id);
      SetSpectate(player, false);
    }

    /**
     * Knocks a player out: everyone listed (the player included) hears the
     * cause, the player becomes a spectator at the spectator spawn and is
     * shown the elimination title. The player stays listed.
     */
    method Eliminate(player: Player, cause: Message)
      modifies chat, player
      ensures players.elems == old(players.elems)
      ensures player.Status() == Eliminated(old(player.Status()), game.arena.spectatorSpawn)
      ensures chat.sent == old(chat.sent) + Deliveries(players.elems, cause) + [Delivery(player.id, YouDied)]
    {
      Broadcast(cause);
      SetSpectate(player, true);
      player.position := game.arena.spectatorSpawn;
      ShowEliminateScreen(player);
    }

    /** Shows the elimination title to the player. */
    method ShowEliminateScreen(player: Player)
      modifies chat
      ensures chat.sent == old(chat.sent) + [Delivery(player.id, YouDied)]
    {
      chat.Send(Delivery(player.id, YouDied));
    }

    /** Handles damage in a match: void damage sends the victim back to the lobby; every event is cancelled. */
    method Analyze(event: DamageEvent, damageType: string, victim: Player)
      modifies event, victim`position
      ensures event.cancelled
      ensures victim.position == if IsVoidDamage(damageType) then game.arena.lobbySpawn else old(victim.position)
    {
      if IsVoidDamage(damageType) {
        victim.position := game.arena.lobbySpawn;
      }
      event.cancelled := true;
    }

    /** Delivers msg to every listed player, in list order, and changes nothing else. */
    method Broadcast(msg: Message)
      modifies chat
      ensures chat.sent == old(chat.sent) + Deliveries(players.elems, msg)
    {
      var listed := players.elems;
      var i := 0;
      while i < |listed|
        invariant 0 <= i <= |listed|
        invariant chat.sent == old(chat.sent) + Deliveries(listed[..i], msg)
      {
        chat.Send(Delivery(listed[i].id, msg));
        assert listed[..i + 1][..i] == listed[..i];
        i := i + 1;
      }
      assert listed[..i] == listed;
    }

    /** setSpectate(p, b): spectator flags become b, health and food are refilled. */
    method SetSpectate(player: Player, b: bool)
      modifies player
      ensures player.Status() == Spectate(old(player.Status()), b)
    {
      player.healthAtMax := true;
      player.foodAtMax := true;
      player.vanish := b;
      player.vanishIgnoresCollision := b;
      player.canFly := b;
      player.isFlying := b;
      player.invulnerable := b;
    }
  }

  /** Whatever status a player had, recruit leaves it in the same match-ready status. */
  lemma RecruitedForgetsPriorStatus(s1: PlayerStatus, s2: PlayerStatus, lobby: Transform)
    ensures Recruited(s1, lobby) == Recruited(s2, lobby)
  {
  }

  /** Switching spectator mode twice keeps only the last switch. */
  lemma SpectateLastWins(s: PlayerStatus, a: bool, b: bool)
    ensures Spectate(Spectate(s, a), b) == Spectate(s, b)
  {
  }

  /**
   * Recruiting then dismissing a player gives back its pre-join status with
   * spectator mode off and health and food refilled, and leaves the
   * directory as if the player had never been recruited (when it had no
   * entry before, which the join command guarantees).
   */
  lemma RecruitDismissRoundTrip(store: map<PlayerId, PlayerStatus>, directory: map<PlayerId, GameId>,
                                p: PlayerId, g: GameId, before: PlayerStatus, lobby: Transform)
    requires p !in directory
    ensures Dismissed(Recruited(before, lobby), Lookup(store[p := before], p)) == Spectate(before, false)
    ensures directory[p := g] - {p} == directory
  {
  }

  /** The eliminated player hears its own elimination cause when it is listed. */
  lemma EliminatedPlayerHearsCause(players: seq<Player>, player: Player, cause: Message)
    requires player in players
    ensures Delivery(player.id, cause) in Deliveries(players, cause)
  {
  }
}
