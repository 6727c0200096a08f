/**
 * The join command: resolve which player is joining, refuse one who is
 * already playing, then find a joinable session of the requested team mode
 * in the process-wide registry, or, only when there is none, ask the arena
 * dispatcher for an arena, parse the match rules and register a new
 * session; finally hand the player to the chosen session.
 *
 * The arena dispatcher's findBy and TeamMode.parse are not part of this
 * model: they are passed in as functions about which nothing is assumed.
 */
module Matchmaking {
  import opened Host
  import opened CaseFolding

  /** The rules a session is created with, as far as the join command reads them: the team mode's name. */
  datatype MatchRules = MatchRules(teamMode: string)

  /** What the registry scan reads from a session: whether canJoin() holds and its team mode's name. */
  datatype SessionView = SessionView(joinable: bool, teamMode: string)

  /** A registered game session. */
  class Session {
    const rules: MatchRules
    const arena: Arena
    /** The answer canJoin() gives now; how a session decides it is not part of this model. */
    var joinable: bool
    /** The players handed to add(), in order. */
    var admitted: seq<PlayerId>

    /** A new session for the given rules and arena; what canJoin() answers is left open. */
    constructor (rules: MatchRules, arena: Arena)
      ensures this.rules == rules && this.arena == arena && admitted == []
    {
      this.rules := rules;
      this.arena := arena;
      admitted := [];
    }

    function View(): SessionView
      reads this
    {
      SessionView(joinable, rules.teamMode)
    }

    /**
     * add(player): the session takes the player. Only the hand-over is
     * promised; what the session does next (its canJoin answer, the player
     * directory, messages) may change in any way.
     */
    method Add(p: PlayerId, directory: PlayerDirectory, chat: Chat)
      modifies this, directory, chat
      ensures admitted == old(admitted) + [p]
    {
      admitted := admitted + [p];
    }
  }

  /** SessionRegistry.GAME_SESSIONS: the live sessions, in insertion order. */
  class Registry {
    var sessions: seq<Session>

    constructor ()
      ensures sessions == []
    {
      sessions := [];
    }
  }

  /** The views of a list of sessions, position by position. */
  function Views(sessions: seq<Session>): (r: seq<SessionView>)
    reads set s | s in sessions
    ensures |r| == |sessions|
    ensures forall k :: 0 <= k < |sessions| ==> r[k] == sessions[k].View()
  {
    if sessions == [] then []
    else Views(sessions[..|sessions| - 1]) + [sessions[|sessions| - 1].View()]
  }

  /** The scan's criteria: canJoin() and a team mode named exactly the lowered requested mode. */
  function Matches(v: SessionView, mode: string): (r: bool)
    ensures r ==> v.joinable
    ensures r ==> Lower(v.teamMode) == v.teamMode
  {
    LowerIdempotent(mode);
    v.joinable && v.teamMode == Lower(mode)
  }

  /** filter(criteria).findAny(), taken as the first matching session: its index, or None when none matches. */
  function FirstJoinable(views: seq<SessionView>, mode: string): (r: Option<nat>)
    ensures r.Some? ==> r.value < |views| && Matches(views[r.value], mode)
    ensures r.Some? ==> forall j :: 0 <= j < r.value ==> !Matches(views[j], mode)
    ensures r.None? <==> forall j :: 0 <= j < |views| ==> !Matches(views[j], mode)
  {
    if views == [] then None
    else if Matches(views[0], mode) then Some(0)
    else match FirstJoinable(views[1..], mode)
      case None => None
      case Some(i) => Some(i + 1)
  }

  /** What getGame decides: reuse a registered session, create one on an arena, or give up. */
  datatype Choice = Reuse(index: nat) | Create(arena: Arena, rules: MatchRules) | Unavailable

  /** getGame's decision for a registry whose sessions look like views. */
  function Choose(views: seq<SessionView>, mode: string, arenaName: string,
                  findBy: (string, string) -> Option<Arena>,
                  parse: (string, nat) -> MatchRules): (c: Choice)
    ensures c.Reuse? <==> exists j :: 0 <= j < |views| && Matches(views[j], mode)
    ensures c.Reuse? ==> c.index < |views| && Matches(views[c.index], mode)
    ensures c.Create? ==> findBy(mode, arenaName) == Some(c.arena) && c.rules == parse(mode, c.arena.startPoints)
    ensures c.Unavailable? <==> FirstJoinable(views, mode).None? && findBy(mode, arenaName).None?
  {
    match FirstJoinable(views, mode)
    case Some(i) => Reuse(i)
    case None =>
      match findBy(mode, arenaName)
      case Some(arena) => Create(arena, parse(mode, arena.startPoints))
      case None => Unavailable
  }

  /** getGame: scan the registry, else create and register a session, else return null. */
  method GetGame(registry: Registry, mode: string, arenaName: string,
                 findBy: (string, string) -> Option<Arena>,
                 parse: (string, nat) -> MatchRules) returns (s: Session?)
    modifies registry
    ensures var c := Choose(old(Views(registry.sessions)), mode, arenaName, findBy, parse);
      match c
      case Reuse(i) =>
        i < |old(registry.sessions)| && s == old(registry.sessions)[i] && registry.sessions == old(registry.sessions)
      case Create(arena, rules) =>
        s != null && fresh(s) && s.arena == arena && s.rules == rules && s.admitted == [] &&
        registry.sessions == old(registry.sessions) + [s]
      case Unavailable =>
        s == null && registry.sessions == old(registry.sessions)
    ensures |registry.sessions| <= |old(registry.sessions)| + 1
    ensures registry.sessions[..|old(registry.sessions)|] == old(registry.sessions)
  {
    var found := FirstJoinable(Views(registry.sessions), mode);
    if found.Some? {
      return registry.sessions[found.value];
    }
    var optArena := findBy(mode, arenaName);
    if optArena.Some? {
      var arena := optArena.value;
      var matchRules := parse(mode, arena.startPoints);
      s := new Session(matchRules, arena);
      registry.sessions := registry.sessions + [s];
      return s;
    }
    return null;
  }

  /** Who issued the command: a player, or something else (the console, a command block). */
  datatype Source = PlayerSource(id: PlayerId) | OtherSource

  /** Which player the command is for, or why there is none. */
  datatype Resolution = Resolved(player: PlayerId) | WrongTarget(source: PlayerId) | NoTarget

  /** execute's player resolution: a player may only join itself; anything else must name a player. */
  function ResolvePlayer(src: Source, target: Option<PlayerId>): (r: Resolution)
    ensures r.WrongTarget? <==> src.PlayerSource? && target.Some? && target.value != src.id
    ensures r.WrongTarget? ==> r.source == src.id
    ensures r.NoTarget? <==> src.OtherSource? && target.None?
    ensures r.Resolved? && src.PlayerSource? ==> r.player == src.id
    ensures r.Resolved? && src.OtherSource? ==> target == Some(r.player)
  {
    match src
    case PlayerSource(id) => if target.Some? && target.value != id then WrongTarget(id) else Resolved(id)
    case OtherSource => if target.None? then NoTarget else Resolved(target.value)
  }

  datatype CommandResult = Empty | Success

  /** The outcome of a join request: refused with the messages sent, or a player joining per a choice. */
  datatype Outcome = Refused(notices: seq<Delivery>) | Joined(player: PlayerId, choice: Choice)

  /** execute, as a function of the request, the directory and the registry's views. */
  function JoinOutcome(src: Source, target: Option<PlayerId>, mode: Option<string>, arenaName: Option<string>,
                       directory: map<PlayerId, GameId>, views: seq<SessionView>,
                       findBy: (string, string) -> Option<Arena>,
                       parse: (string, nat) -> MatchRules): (o: Outcome)
    // Corollaries of the case-by-case clauses that follow: who may join at all.
    ensures o.Joined? ==> ResolvePlayer(src, target) == Resolved(o.player) && mode.Some?
    ensures o.Joined? ==> o.player !in directory && !o.choice.Unavailable?
    ensures var res := ResolvePlayer(src, target);
            var hint := if arenaName.Some? then arenaName.value else "";
            res.Resolved? && mode.Some? && res.player !in directory ==>
              var c := Choose(views, Lower(mode.value), hint, findBy, parse);
              o == if c.Unavailable? then Refused([Delivery(res.player, NoArenaAvailable)]) else Joined(res.player, c)
    ensures ResolvePlayer(src, target).WrongTarget? ==> o == Refused([Delivery(ResolvePlayer(src, target).source, UseCommandBlock)])
    ensures ResolvePlayer(src, target).NoTarget? ==> o == Refused([])
    ensures ResolvePlayer(src, target).Resolved? && mode.None? ==> o == Refused([])
    ensures ResolvePlayer(src, target).Resolved? && mode.Some? && ResolvePlayer(src, target).player in directory ==>
              o == Refused([Delivery(ResolvePlayer(src, target).player, AlreadyInGame)])
  {
    match ResolvePlayer(src, target)
    case WrongTarget(id) => Refused([Delivery(id, UseCommandBlock)])
    case NoTarget => Refused([])
    case Resolved(p) =>
      if mode.None? then Refused([])
      else if p in directory then Refused([Delivery(p, AlreadyInGame)])
      else
        var hint := if arenaName.Some? then arenaName.value else "";
        var c := Choose(views, Lower(mode.value), hint, findBy, parse);
        if c.Unavailable? then Refused([Delivery(p, NoArenaAvailable)]) else Joined(p, c)
  }

  /**
   * execute: the join command. A refused request sends its notices and
   * changes no session and not the registry; a successful one registers at
   * most the one new session getGame creates and hands the player to the
   * chosen session once.
   */
  method Execute(src: Source, target: Option<PlayerId>, mode: Option<string>, arenaName: Option<string>,
                 directory: PlayerDirectory, registry: Registry, chat: Chat,
                 findBy: (string, string) -> Option<Arena>,
                 parse: (string, nat) -> MatchRules) returns (result: CommandResult)
    modifies registry, chat, directory, set s | s in registry.sessions
    ensures var o := JoinOutcome(src, target, mode, arenaName, old(directory.games),
                                 old(Views(registry.sessions)), findBy, parse);
      match o
      case Refused(notices) =>
        result == Empty && chat.sent == old(chat.sent) + notices &&
        registry.sessions == old(registry.sessions) && directory.games == old(directory.games) &&
        forall k :: 0 <= k < |registry.sessions| ==>
          registry.sessions[k].admitted == old(registry.sessions[k].admitted) &&
          registry.sessions[k].joinable == old(registry.sessions[k].joinable)
      case Joined(p, Reuse(i)) =>
        result == Success &&
        registry.sessions == old(registry.sessions) && i < |registry.sessions| &&
        registry.sessions[i].admitted == old(registry.sessions[i].admitted) + [p] &&
        forall k :: 0 <= k < |registry.sessions| && registry.sessions[k] != registry.sessions[i] ==>
          registry.sessions[k].admitted == old(registry.sessions[k].admitted)
      case Joined(p, Create(arena, rules)) =>
        result == Success &&
        |registry.sessions| == |old(registry.sessions)| + 1 &&
        registry.sessions[..|old(registry.sessions)|] == old(registry.sessions) &&
        var s := registry.sessions[|old(registry.sessions)|];
        fresh(s) && s.arena == arena && s.rules == rules && s.admitted == [p] &&
        forall k :: 0 <= k < |old(registry.sessions)| ==> registry.sessions[k].admitted == old(registry.sessions[k].admitted)
      case Joined(_, Unavailable) => false
  {
    var res := ResolvePlayer(src, target);
    if res.WrongTarget? {
      chat.Send(Delivery(res.source, UseCommandBlock));
      return Empty;
    }
    if res.NoTarget? {
      return Empty;
    }
    var player := res.player;
    var hint := if arenaName.Some? then arenaName.value else "";
    if mode.None? {
      return Empty;
    }
    if directory.IsPlaying(player) {
      chat.Send(Delivery(player, AlreadyInGame));
      return Empty;
    }
    var session := GetGame(registry, Lower(mode.value), hint, findBy, parse);
    if session == null {
      chat.Send(Delivery(player, NoArenaAvailable));
      return Empty;
    }
    assert session in old(registry.sessions) || fresh(session);
    session.Add(player, directory, chat);
    return Success;
  }

  /** The scan's criteria on an already lowered mode: canJoin() and the team mode named exactly that mode. */
  lemma MatchesLoweredMode(v: SessionView, mode: string)
    ensures Matches(v, Lower(mode)) <==> v.joinable && v.teamMode == Lower(mode)
  {
  }

  /**
   * A player that recruit has just entered in the directory (under any game)
   * is refused by a further join request for it, with the already-in-game
   * notice, whatever mode, arena name and sessions the request meets.
   */
  lemma RecruitedPlayerIsRefused(src: Source, target: Option<PlayerId>, mode: string, arenaName: Option<string>,
                                 directory: map<PlayerId, GameId>, p: PlayerId, g: GameId, views: seq<SessionView>,
                                 findBy: (string, string) -> Option<Arena>, parse: (string, nat) -> MatchRules)
    requires ResolvePlayer(src, target) == Resolved(p)
    ensures JoinOutcome(src, target, Some(mode), arenaName, directory[p := g], views, findBy, parse)
            == Refused([Delivery(p, AlreadyInGame)])
  {
  }

  /**
   * Once dismiss has cleared a player's directory entry, a join request for
   * it is no longer stopped by the already-in-game guard: it gets getGame's
   * decision, as a player that was never recruited would.
   */
  lemma DismissedPlayerMayJoin(src: Source, target: Option<PlayerId>, mode: string, arenaName: Option<string>,
                               directory: map<PlayerId, GameId>, p: PlayerId, views: seq<SessionView>,
                               findBy: (string, string) -> Option<Arena>, parse: (string, nat) -> MatchRules)
    requires ResolvePlayer(src, target) == Resolved(p)
    ensures var hint := if arenaName.Some? then arenaName.value else "";
            var c := Choose(views, Lower(mode), hint, findBy, parse);
            JoinOutcome(src, target, Some(mode), arenaName, directory - {p}, views, findBy, parse)
            == if c.Unavailable? then Refused([Delivery(p, NoArenaAvailable)]) else Joined(p, c)
  {
  }

  /**
   * Once a joinable session of the requested mode is registered, the arena
   * name hint and the arena dispatcher play no part: any two of them give
   * the same decision, a reuse.
   */
  lemma ReuseIgnoresArenaHint(views: seq<SessionView>, mode: string,
                              hint1: string, findBy1: (string, string) -> Option<Arena>,
                              hint2: string, findBy2: (string, string) -> Option<Arena>,
                              parse: (string, nat) -> MatchRules, j: nat)
    requires j < |views| && Matches(views[j], mode)
    ensures Choose(views, mode, hint1, findBy1, parse).Reuse?
    ensures Choose(views, mode, hint1, findBy1, parse) == Choose(views, mode, hint2, findBy2, parse)
  {
  }

  /** The requested mode counts only through its lower-case form. */
  lemma ModeIsCaseInsensitive(src: Source, target: Option<PlayerId>, mode1: string, mode2: string,
                              arenaName: Option<string>, directory: map<PlayerId, GameId>, views: seq<SessionView>,
                              findBy: (string, string) -> Option<Arena>, parse: (string, nat) -> MatchRules)
    requires Lower(mode1) == Lower(mode2)
    ensures JoinOutcome(src, target, Some(mode1), arenaName, directory, views, findBy, parse)
            == JoinOutcome(src, target, Some(mode2), arenaName, directory, views, findBy, parse)
  {
  }

  /**
   * Reuse before create: when a request created a session and that session
   * is joinable under the requested mode, the next request for the same
   * mode joins that session, whatever its arena hint and the dispatcher say.
   */
  lemma {:induction false} CreatedSessionIsReusedNext(views: seq<SessionView>, mode: string,
                                                      hint1: string, findBy1: (string, string) -> Option<Arena>,
                                                      hint2: string, findBy2: (string, string) -> Option<Arena>,
                                                      parse: (string, nat) -> MatchRules, created: SessionView)
    requires Choose(views, mode, hint1, findBy1, parse).Create?
    requires Matches(created, mode)
    ensures Choose(views + [created], mode, hint2, findBy2, parse) == Reuse(|views|)
  {
    var next := views + [created];
    assert next[|views|] == created;
    var r := FirstJoinable(next, mode);
    assert r.Some?;
    assert forall j :: 0 <= j < |views| ==> next[j] == views[j];
  }
}
