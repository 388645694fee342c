/** The roster slice: the sample roster, the player list edits and the fetch status. */
module Players {
  import opened Types
  import opened Lists

  function PlayerKey(p: Player): string { p.id }

  /** A player as the roster form submits it, before it has an id. */
  datatype PlayerDraft = PlayerDraft(
    name: string,
    number: int,
    position: Positions,
    minutes: MinutesPolicy,
    skills: seq<Skill>)

  /** `{ ...draft, id }`. */
  function WithId(draft: PlayerDraft, id: string): (p: Player)
    ensures p.id == id
    ensures PlayerDraft(p.name, p.number, p.position, p.minutes, p.skills) == draft
  {
    Player(id, draft.name, draft.number, draft.position, draft.minutes, draft.skills)
  }

  /** `samplePlayers`, with the five ids drawn when the module loads given as `ids`. */
  function SamplePlayers(ids: seq<string>): (ps: seq<Player>)
    requires |ids| == 5
    ensures |ps| == 5
    ensures forall j :: 0 <= j < 5 ==> ps[j].id == ids[j] && ps[j].number == j + 1
  {
    [ Player(ids[0], "John Smith", 1, One(PointGuard), MinutesPolicy(30.0, 36.0, 8.0), [Playmaker, Defender]),
      Player(ids[1], "Mike Johnson", 2, One(ShootingGuard), MinutesPolicy(28.0, 32.0, 7.0), [Shooter, Finisher]),
      Player(ids[2], "Dave Williams", 3, One(SmallForward), MinutesPolicy(24.0, 30.0, 8.0), [Versatile, Defender]),
      Player(ids[3], "James Brown", 4, One(PowerForward), MinutesPolicy(26.0, 32.0, 7.0), [Rebounder, Finisher]),
      Player(ids[4], "Robert Davis", 5, One(Center), MinutesPolicy(24.0, 28.0, 6.0), [Rebounder, Defender]) ]
  }

  /** Every sample player targets no more than their maximum, has a positive consecutive
      limit and at least one skill, and no two share a jersey number. */
  lemma SampleRosterIsConsistent(ids: seq<string>)
    requires |ids| == 5
    ensures forall p :: p in SamplePlayers(ids) ==>
      && 0.0 < p.minutes.target <= p.minutes.max
      && p.minutes.consecutive > 0.0
      && |p.skills| > 0
    ensures forall i, j :: 0 <= i < j < 5 ==> SamplePlayers(ids)[i].number != SamplePlayers(ids)[j].number
  {
    var ps := SamplePlayers(ids);
    forall p | p in ps
      ensures 0.0 < p.minutes.target <= p.minutes.max && p.minutes.consecutive > 0.0 && |p.skills| > 0
    {
      var j :| 0 <= j < 5 && ps[j] == p;
    }
  }

  class PlayersState {
    var items: seq<Player>
    var status: Status
    var error: Option<string>

    /** `initialState`. */
    constructor()
      ensures items == [] && status == Idle && error == None
    {
      items := [];
      status := Idle;
      error := None;
    }

    /** `addPlayer`: appends the draft under a fresh id. */
    method AddPlayer(draft: PlayerDraft, freshId: string)
      requires freshId !in Ids(items)
      modifies this
      ensures items == old(items) + [WithId(draft, freshId)]
      ensures Ids(items) == Ids(old(items)) + {freshId}
      ensures UniqueKeys(old(items), PlayerKey) ==> UniqueKeys(items, PlayerKey)
      ensures status == old(status) && error == old(error)
    {
      var newPlayer := WithId(draft, freshId);
      assert !HasKey(items, PlayerKey, freshId);
      if UniqueKeys(items, PlayerKey) {
        AppendIfAbsentKeepsUnique(items, PlayerKey, newPlayer);
      }
      items := items + [newPlayer];
    }

    /** `updatePlayer`: replaces the first player with the same id, if any. */
    method UpdatePlayer(player: Player)
      modifies this
      ensures items == ReplaceFirst(old(items), PlayerKey, player)
      ensures status == old(status) && error == old(error)
    {
      var index := FirstIndex(items, PlayerKey, player.id);
      if index != -1 {
        items := items[index := player];
      }
    }

    /** `removePlayer`: keeps every player with a different id. */
    method RemovePlayer(id: string)
      modifies this
      ensures items == RemoveAll(old(items), PlayerKey, id)
      ensures status == old(status) && error == old(error)
    {
      items := RemoveAll(items, PlayerKey, id);
    }

    /** `fetchPlayers.pending`. */
    method FetchPlayersPending()
      modifies this
      ensures status == Loading
      ensures items == old(items) && error == old(error)
    {
      status := Loading;
    }

    /** `fetchPlayers.fulfilled`: the fetched roster replaces the list. */
    method FetchPlayersFulfilled(payload: seq<Player>)
      modifies this
      ensures status == Succeeded && items == payload
      ensures error == old(error)
    {
      status := Succeeded;
      items := payload;
    }

    /** `fetchPlayers.rejected`: the list is kept. */
    method FetchPlayersRejected(message: Option<string>)
      modifies this
      ensures status == Failed && error == Some(ErrorText(message, "Failed to fetch players"))
      ensures items == old(items)
    {
      status := Failed;
      error := Some(ErrorText(message, "Failed to fetch players"));
    }

    /** `savePlayer.fulfilled`: replaces the first player with the same id, or appends. */
    method SavePlayerFulfilled(player: Player)
      modifies this
      ensures items == Upsert(old(items), PlayerKey, player)
      ensures status == old(status) && error == old(error)
    {
      var index := FirstIndex(items, PlayerKey, player.id);
      if index != -1 {
        items := items[index := player];
      } else {
        items := items + [player];
      }
    }
  }
}
