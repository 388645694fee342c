/** The records shared by the roster, the rotation builder and the analytics.
    Times are whole seconds from tip-off; minutes, fatigue and ratings are exact reals. */
module Types {

  datatype Option<T> = None | Some(value: T)

  /** The five court positions. */
  datatype Position = PointGuard | ShootingGuard | SmallForward | PowerForward | Center

  /** The seven skill tags a player can carry. */
  datatype Skill = Shooter | Defender | Playmaker | Rebounder | Finisher | EnergyPlayer | Versatile

  /** A player plays one position or a list of them. */
  datatype Positions = One(position: Position) | Many(positions: seq<Position>)

  /** Minutes policy: target, maximum and maximum consecutive minutes. */
  datatype MinutesPolicy = MinutesPolicy(target: real, max: real, consecutive: real)

  datatype Player = Player(
    id: string,
    name: string,
    number: int,
    position: Positions,
    minutes: MinutesPolicy,
    skills: seq<Skill>)

  /** One uninterrupted stretch on or off the court, in seconds. */
  datatype TimeSegment = TimeSegment(startTime: int, endTime: int, onCourt: bool)

  datatype PlayerAssignment = PlayerAssignment(playerId: string, segments: seq<TimeSegment>)

  datatype Period = Period(id: string, name: string, duration: int, startTime: int, endTime: int)

  datatype Rotation = Rotation(
    id: string,
    gameId: string,
    name: string,
    periods: seq<Period>,
    playerAssignments: seq<PlayerAssignment>)

  /** A number as the program computes it, where 0/0 yields NaN. */
  datatype Number = Num(value: real) | NaN

  datatype LineupEffectiveness = LineupEffectiveness(
    players: seq<string>,
    offensiveRating: Number,
    defensiveRating: Number,
    plusMinus: Number)

  datatype FatigueModel = FatigueModel(playerId: string, timestamps: seq<int>, fatigueValues: seq<real>)

  datatype MinutesDistribution = MinutesDistribution(
    playerId: string,
    totalMinutes: real,
    minutesByPeriod: map<string, real>)

  /** Status of a slice's latest asynchronous request. */
  datatype Status = Idle | Loading | Succeeded | Failed

  /** `message || fallback`: a missing or empty message falls back to the default text. */
  function ErrorText(message: Option<string>, fallback: string): (text: string)
    ensures message.Some? && message.value != "" ==> text == message.value
    ensures message.None? || message.value == "" ==> text == fallback
  {
    if message.Some? && message.value != "" then message.value else fallback
  }

  /** `findIndex(x => key(x) === id)`: the first position whose key is `id`, or -1. */
  function FirstIndex<T>(s: seq<T>, key: T -> string, id: string): (k: int)
    ensures -1 <= k < |s|
    ensures k >= 0 ==> key(s[k]) == id
    ensures k >= 0 ==> forall j :: 0 <= j < k ==> key(s[j]) != id
    ensures k == -1 <==> forall j :: 0 <= j < |s| ==> key(s[j]) != id
  {
    if |s| == 0 then -1
    else if key(s[0]) == id then 0
    else
      var k := FirstIndex(s[1..], key, id);
      assert forall j :: 1 <= j < |s| ==> s[j] == s[1..][j - 1];
      if k < 0 then -1 else k + 1
  }

  /** `players.find(p => p.id === id)`: the first player with that id. */
  function FindPlayer(players: seq<Player>, id: string): (found: Option<Player>)
    ensures found.Some? <==> exists j :: 0 <= j < |players| && players[j].id == id
    ensures found.Some? ==> found.value.id == id && found.value in players
    ensures found.Some? ==> exists j :: 0 <= j < |players| && players[j] == found.value
                                        && forall i :: 0 <= i < j ==> players[i].id != id
  {
    var k := FirstIndex(players, (p: Player) => p.id, id);
    if k < 0 then None else Some(players[k])
  }

  function Ids(players: seq<Player>): (ids: set<string>)
    ensures forall id :: id in ids <==> exists j :: 0 <= j < |players| && players[j].id == id
  {
    set p | p in players :: p.id
  }
}
