/** The decoded entities of helldivepy/models.py as plain values, the lookups the shared
    client instance offers them, and the derived relations computed from those lookups. */
module Models {
  import opened Wrappers
  import Enums

  /** A Python float, kept as its IEEE-754 bit pattern; no arithmetic is modelled on it. */
  datatype Float = Float(bits: bv64)

  /** A decoded datetime, kept as its ISO-8601 text. */
  datatype DateTime = DateTime(iso: string)

  datatype ApiUrlConfiguration = ApiUrlConfiguration(diveharder: string, community: string)

  datatype Statistics = Statistics(
    missionsWon: int, missionsLost: int, missionTime: int,
    terminidKills: int, automatonKills: int, illuminateKills: int,
    bulletsFired: int, bulletsHit: int, timePlayed: int,
    deaths: int, revives: int, friendlies: int,
    missionSuccessRate: Float, accuracy: int, playerCount: int)

  datatype WarInfo = WarInfo(
    started: DateTime, ended: DateTime, now: DateTime, clientVersion: string,
    factions: seq<Enums.Faction>, impactMultiplier: Float, statistics: Statistics)

  /** `type` is the literal 0. */
  datatype Dispatch = Dispatch(id: int, published: DateTime, kind: int, message: string)

  datatype SteamNews = SteamNews(
    id: string, title: string, url: string, author: string, content: string, publishedAt: DateTime)

  /** `event_type` is the literal 1. */
  datatype PlanetEvent = PlanetEvent(
    id: int, eventType: int, faction: Enums.Faction, health: int, maxHealth: int,
    startTime: DateTime, endTime: DateTime, campaignId: int, jointOperationIds: seq<int>)

  datatype Position = Position(x: Float, y: Float)

  datatype PlanetaryHazard = PlanetaryHazard(name: string, description: string)

  datatype Biome = Biome(name: string, description: string)

  datatype Planet = Planet(
    index: int, name: string, sector: string, biome: Biome, hazards: seq<PlanetaryHazard>,
    hash: int, position: Position, waypoints: seq<int>, maxHealth: int, health: int,
    disabled: bool, initialOwner: Enums.Faction, currentOwner: Enums.Faction,
    regenPerSecond: Float, event: Option<PlanetEvent>, statistics: Statistics, attacking: seq<int>)

  /** The four optional slots an assignment task's value pairs are decoded into. */
  datatype TaskData = TaskData(
    liberate: Option<bool>, planet: Option<Planet>, targetCount: Option<int>, race: Option<Enums.Faction>)

  /** The record every task starts from before its value pairs are resolved. */
  function DefaultTaskData(): (d: TaskData)
    ensures d.liberate.None? && d.planet.None? && d.targetCount.None? && d.race.None?
  {
    TaskData(None, None, None, None)
  }

  /** An assignment task once decoded: the fields validated from the wire and the resolved data. */
  datatype Task = Task(
    kind: Enums.AssignmentType, values: seq<int>, valueTypes: seq<Enums.ValueType>, data: TaskData)

  /** `type` is the literal 1 (medals). */
  datatype AssignmentReward = AssignmentReward(kind: int, amount: int)

  datatype Assignment = Assignment(
    id: int, progress: seq<int>, title: Option<string>, briefing: Option<string>,
    description: Option<string>, tasks: seq<Task>, reward: AssignmentReward, expiration: DateTime)

  /** `type` is a plain integer. */
  datatype Campaign = Campaign(id: int, planet: Planet, kind: int, count: int)

  datatype SpaceStation = SpaceStation(id: int, planet: Planet, electionEnd: DateTime, flags: int)

  /** What the shared client instance offers the entities: the planet lookup
      `planets.get_planet(index, cached)`, the faction decoder `utils.parse_faction`, and the
      list `space_stations.get_space_stations()` answers at the moment of the call.
      "No client instance" is represented by passing None where an `Option<Context>` is taken. */
  datatype Context = Context(
    getPlanet: (int, bool) -> Option<Planet>,
    parseFaction: int -> Option<Enums.Faction>,
    spaceStations: seq<SpaceStation>)

  /** The Python exceptions the core raises, with their messages. */
  datatype Error = ValueError(message: string) | RuntimeError(message: string) | IndexError(message: string)

  const TaskClientMissing: string := "ApiClient is not initialized"
  const StationClientMissing: string := "ApiClient not initialized."
  const IndexOutOfRange: string := "list index out of range"

  // ------------------------------------------------------------ PlanetEvent.planet

  /** The planet of an event: a soft lookup by the event's campaign id, None without a client. */
  function EventPlanet(e: PlanetEvent, client: Option<Context>): (r: Option<Planet>)
    ensures client.None? ==> r.None?
    ensures client.Some? ==> r == client.value.getPlanet(e.campaignId, false)
  {
    match client
    case None => None
    case Some(ctx) => ctx.getPlanet(e.campaignId, false)
  }

  // ------------------------------------------------------ Planet.has_space_station

  /** `[i.planet.index for i in stations]` */
  function StationPlanetIndices(stations: seq<SpaceStation>): (r: seq<int>)
    ensures |r| == |stations|
    ensures forall i :: 0 <= i < |r| ==> r[i] == stations[i].planet.index
  {
    if stations == [] then []
    else [stations[0].planet.index] + StationPlanetIndices(stations[1..])
  }

  /** Whether some space station orbits this planet; a hard failure without a client. */
  function HasSpaceStation(p: Planet, client: Option<Context>): (r: Result<bool, Error>)
    ensures client.None? <==> r.Failure?
    ensures r.Failure? ==> r.error == RuntimeError(StationClientMissing)
    ensures r.Success? ==>
      (r.value <==> exists s :: s in client.value.spaceStations && s.planet.index == p.index)
  {
    match client
    case None => Failure(RuntimeError(StationClientMissing))
    case Some(ctx) =>
      var indices := StationPlanetIndices(ctx.spaceStations);
      assert forall s :: s in ctx.spaceStations && s.planet.index == p.index ==> p.index in indices by {
        forall s | s in ctx.spaceStations && s.planet.index == p.index ensures p.index in indices {
          var i :| 0 <= i < |ctx.spaceStations| && ctx.spaceStations[i] == s;
          assert indices[i] == p.index;
        }
      }
      Success(p.index in indices)
  }

  // ------------------------------------------------------------ Assignment.is_complete

  /** `all(task.data.target_count == progress[i] for i, task in enumerate(tasks))` from index i on:
      it stops at the first unmet task, and indexing past the end of progress raises. */
  function AllMetFrom(tasks: seq<Task>, progress: seq<int>, i: nat): (r: Result<bool, Error>)
    ensures r.Failure? ==> r.error == IndexError(IndexOutOfRange) && |progress| < |tasks|
    ensures r == Success(true) ==> i >= |tasks| || |tasks| <= |progress|
    ensures r == Success(true) ==> forall j :: i <= j < |tasks| ==> tasks[j].data.targetCount == Some(progress[j])
    decreases |tasks| - i
  {
    if i >= |tasks| then Success(true)
    else if i >= |progress| then Failure(IndexError(IndexOutOfRange))
    else if tasks[i].data.targetCount != Some(progress[i]) then Success(false)
    else AllMetFrom(tasks, progress, i + 1)
  }

  lemma {:induction false} AllMetFromCharacterised(tasks: seq<Task>, progress: seq<int>, i: nat)
    requires i <= |tasks|
    ensures AllMetFrom(tasks, progress, i) ==
      if exists j :: i <= j < |tasks| && j < |progress| && tasks[j].data.targetCount != Some(progress[j])
      then Success(false)
      else if i < |tasks| && |progress| < |tasks| then Failure(IndexError(IndexOutOfRange))
      else Success(true)
    decreases |tasks| - i
  {
    if i < |tasks| && i < |progress| {
      if tasks[i].data.targetCount != Some(progress[i]) {
        assert i <= i < |tasks| && i < |progress| && tasks[i].data.targetCount != Some(progress[i]);
      } else {
        AllMetFromCharacterised(tasks, progress, i + 1);
        assert (exists j :: i <= j < |tasks| && j < |progress| && tasks[j].data.targetCount != Some(progress[j]))
          <==> (exists j :: i + 1 <= j < |tasks| && j < |progress| && tasks[j].data.targetCount != Some(progress[j]));
      }
    }
  }

  /** `Assignment.is_complete` */
  function IsComplete(a: Assignment): (r: Result<bool, Error>)
    ensures r == Success(true) <==>
      |a.tasks| <= |a.progress| && forall i :: 0 <= i < |a.tasks| ==> a.tasks[i].data.targetCount == Some(a.progress[i])
    ensures r.Failure? <==>
      |a.progress| < |a.tasks| && forall i :: 0 <= i < |a.progress| ==> a.tasks[i].data.targetCount == Some(a.progress[i])
    ensures r.Failure? ==> r.error == IndexError(IndexOutOfRange)
  {
    AllMetFromCharacterised(a.tasks, a.progress, 0);
    AllMetFrom(a.tasks, a.progress, 0)
  }

  /** With a progress entry for every task, completion is exactly "every target count is met". */
  lemma IsCompleteWithFullProgress(a: Assignment)
    requires |a.tasks| <= |a.progress|
    ensures IsComplete(a) == Success(forall i :: 0 <= i < |a.tasks| ==> a.tasks[i].data.targetCount == Some(a.progress[i]))
  {
    var r := IsComplete(a);
    if !(forall i :: 0 <= i < |a.tasks| ==> a.tasks[i].data.targetCount == Some(a.progress[i])) {
      assert r.Success? && r != Success(true);
      assert !r.value;
      assert r == Success(r.value);
    }
  }

  /** A task whose target count was never populated keeps the assignment from completing. */
  lemma MissingTargetNeverCompletes(a: Assignment, k: nat)
    requires k < |a.tasks| && a.tasks[k].data.targetCount.None?
    ensures IsComplete(a) != Success(true)
  {
  }

  /** Two tasks with target counts 10 and "never populated", both at progress 10: not complete. */
  lemma UnpopulatedSecondTarget(a: Assignment)
    requires |a.tasks| == 2 && a.progress == [10, 10]
    requires a.tasks[0].data.targetCount == Some(10) && a.tasks[1].data.targetCount.None?
    ensures IsComplete(a) == Success(false)
  {
    IsCompleteWithFullProgress(a);
  }
}
