/*
 * A player of a game in progress: whether it is active and spectating, its
 * team and number, its statistics, and the set of teams whose units it may
 * command.
 */
module Player {
  import opened Wrappers

  /** Number of team slots (`MAX_TEAMS`). */
  const MaxTeams: nat

  /** What the rule for controlled teams reads of a team. */
  datatype Team = Team(isAI: bool, dllAI: string, leader: int)

  datatype Statistics = Statistics(
    mousePixels: int, mouseClicks: int, keyPresses: int, numCommands: int, unitCommands: int)

  const ZeroStatistics := Statistics(0, 0, 0, 0, 0)

  /** A team run by a native (DLL) AI whose client is `playerNum`; Lua AIs need no
      client control. */
  predicate LeadsDllAI(team: Option<Team>, playerNum: int) {
    team.Some? && team.value.isAI && team.value.dllAI != [] && team.value.leader == playerNum
  }

  /** The indices below `n` of the teams led as DLL AIs by `playerNum`. */
  function AITeamsLed(teams: seq<Option<Team>>, playerNum: int, n: nat): (r: set<int>)
    requires n <= |teams|
    ensures forall t :: t in r <==> 0 <= t < n && LeadsDllAI(teams[t], playerNum)
  {
    if n == 0 then {}
    else if LeadsDllAI(teams[n - 1], playerNum) then AITeamsLed(teams, playerNum, n - 1) + {n - 1}
    else AITeamsLed(teams, playerNum, n - 1)
  }

  /** The teams a player may command: all team slots in god mode; otherwise its own
      team unless it is spectating, and every team it leads as a DLL AI. `teams` is
      the team handler's active teams, `None` for an empty slot. */
  function ControlledTeams(godMode: bool, spectator: bool, team: int, playerNum: int,
                           teams: seq<Option<Team>>): (r: set<int>)
    ensures godMode ==> forall t :: t in r <==> 0 <= t < MaxTeams
    ensures !godMode ==> forall t :: t in r <==>
      (!spectator && t == team) || (0 <= t < |teams| && LeadsDllAI(teams[t], playerNum))
  {
    if godMode then AllTeams(MaxTeams)
    else (if spectator then {} else {team}) + AITeamsLed(teams, playerNum, |teams|)
  }

  /** Team indices `0 .. n - 1`. */
  function AllTeams(n: nat): (r: set<int>)
    ensures forall t :: t in r <==> 0 <= t < n
  {
    if n == 0 then {} else AllTeams(n - 1) + {n - 1}
  }

  /** A spectator who leads no DLL AI controls no team, unless in god mode. */
  lemma SpectatorControlsNothing(spectator: bool, team: int, playerNum: int, teams: seq<Option<Team>>)
    requires spectator
    requires forall t :: 0 <= t < |teams| ==> !LeadsDllAI(teams[t], playerNum)
    ensures ControlledTeams(false, spectator, team, playerNum, teams) == {}
  {
    var r := ControlledTeams(false, spectator, team, playerNum, teams);
    assert forall t :: t !in r;
  }

  /** Two players that agree on spectating, team and number control the same teams:
      nothing else about a player, in particular not the teams it controlled
      before, enters the rule. */
  lemma ControlledTeamsDeterminedByPlayer(godMode: bool, spectator: bool, team: int, playerNum: int,
                                          teams: seq<Option<Team>>, other: seq<Option<Team>>)
    requires |teams| == |other|
    requires forall t :: 0 <= t < |teams| ==> LeadsDllAI(teams[t], playerNum) == LeadsDllAI(other[t], playerNum)
    ensures ControlledTeams(godMode, spectator, team, playerNum, teams)
      == ControlledTeams(godMode, spectator, team, playerNum, other)
  {
    var r := ControlledTeams(godMode, spectator, team, playerNum, teams);
    var s := ControlledTeams(godMode, spectator, team, playerNum, other);
    assert forall t :: t in r <==> t in s;
  }

  /** `CPlayer`. */
  class CPlayer {
    var active: bool
    var readyToStart: bool
    var cpuUsage: real
    var ping: int
    var spectator: bool
    var team: int
    var playerNum: int
    var currentStats: Statistics
    var controlledTeams: set<int>

    /** A new player: inactive, not ready, no CPU use or ping, statistics zeroed. The
        other fields are not set by the constructor. */
    constructor ()
      ensures !active && !readyToStart && cpuUsage == 0.0 && ping == 0
      ensures currentStats == ZeroStatistics
    {
      currentStats := ZeroStatistics;
      active := false;
      readyToStart := false;
      cpuUsage := 0.0;
      ping := 0;
    }

    /** `SetControlledTeams`: the set is emptied and refilled from the current state
        alone. */
    method SetControlledTeams(godMode: bool, teams: seq<Option<Team>>)
      modifies this`controlledTeams
      ensures controlledTeams == ControlledTeams(godMode, spectator, team, playerNum, teams)
    {
      controlledTeams := {};
      if godMode {
        var t := 0;
        while t < MaxTeams
          invariant 0 <= t <= MaxTeams
          invariant controlledTeams == AllTeams(t)
        {
          controlledTeams := controlledTeams + {t};
          t := t + 1;
        }
        return;
      }
      if !spectator {
        controlledTeams := controlledTeams + {team};
      }
      ghost var own := controlledTeams;
      var t := 0;
      while t < |teams|
        invariant 0 <= t <= |teams|
        invariant controlledTeams == own + AITeamsLed(teams, playerNum, t)
      {
        var slot := teams[t];
        if slot.Some? && slot.value.isAI && slot.value.dllAI != [] && slot.value.leader == playerNum {
          controlledTeams := controlledTeams + {t};
        }
        t := t + 1;
      }
    }

    /** `StartSpectating`, for the player itself: it becomes a spectator and keeps its
        team and number. */
    method StartSpectating()
      modifies this`spectator
      ensures spectator
    {
      spectator := true;
    }
  }

  /** The player's set is the one the rule gives for its current state. */
  ghost predicate UpToDate(p: CPlayer, godMode: bool, teams: seq<Option<Team>>)
    reads p
  {
    p.controlledTeams == ControlledTeams(godMode, p.spectator, p.team, p.playerNum, teams)
  }

  /** `UpdateControlledTeams`: every active player's set is recomputed. `players` is
      the player handler's list, `null` for an empty slot, which is skipped; the first
      `activePlayers` are active. */
  method UpdateControlledTeams(players: seq<CPlayer?>, activePlayers: int, godMode: bool,
                               teams: seq<Option<Team>>)
    requires activePlayers <= |players|
    modifies set p | 0 <= p < activePlayers && players[p] != null :: players[p]
    ensures forall p :: 0 <= p < activePlayers && players[p] != null ==> UpToDate(players[p], godMode, teams)
    ensures forall q :: 0 <= q < |players| && players[q] != null ==>
      players[q].active == old(players[q].active) && players[q].spectator == old(players[q].spectator)
      && players[q].team == old(players[q].team) && players[q].playerNum == old(players[q].playerNum)
  {
    var p := 0;
    while p < activePlayers
      invariant 0 <= p && (activePlayers >= 0 ==> p <= activePlayers)
      invariant forall q :: 0 <= q < p && q < activePlayers && players[q] != null ==> UpToDate(players[q], godMode, teams)
      invariant forall q :: 0 <= q < |players| && players[q] != null ==> players[q].spectator == old(players[q].spectator)
      invariant forall q :: 0 <= q < |players| && players[q] != null ==> players[q].team == old(players[q].team)
      invariant forall q :: 0 <= q < |players| && players[q] != null ==> players[q].playerNum == old(players[q].playerNum)
      invariant forall q :: 0 <= q < |players| && players[q] != null ==> players[q].active == old(players[q].active)
    {
      var player := players[p];
      if player != null {
        player.SetControlledTeams(godMode, teams);
      }
      p := p + 1;
    }
  }
}
