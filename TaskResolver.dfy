/** `AssignmentTask.model_post_init` (helldivepy/models.py): the task's parallel `value_types` and
    `values` lists are walked pair by pair and each recognised tag overwrites one slot of the
    task's data record. */
module TaskResolver {
  import opened Wrappers
  import opened Models
  import Enums

  /** The four slots of a task's data record. */
  datatype Slot = LiberateSlot | PlanetSlot | TargetCountSlot | RaceSlot

  /** The contents of one slot, tagged with the slot it belongs to. */
  datatype SlotValue =
    | LiberateValue(liberate: Option<bool>)
    | PlanetValue(planet: Option<Planet>)
    | TargetCountValue(targetCount: Option<int>)
    | RaceValue(race: Option<Enums.Faction>)

  function SlotOfValue(v: SlotValue): Slot
  {
    match v
    case LiberateValue(_) => LiberateSlot
    case PlanetValue(_) => PlanetSlot
    case TargetCountValue(_) => TargetCountSlot
    case RaceValue(_) => RaceSlot
  }

  /** Read one slot of a record. */
  function Get(d: TaskData, s: Slot): (v: SlotValue)
    ensures SlotOfValue(v) == s
  {
    match s
    case LiberateSlot => LiberateValue(d.liberate)
    case PlanetSlot => PlanetValue(d.planet)
    case TargetCountSlot => TargetCountValue(d.targetCount)
    case RaceSlot => RaceValue(d.race)
  }

  /** Overwrite one slot of a record, leaving the other three as they were. */
  function Put(d: TaskData, v: SlotValue): (r: TaskData)
    ensures Get(r, SlotOfValue(v)) == v
    ensures forall s :: s != SlotOfValue(v) ==> Get(r, s) == Get(d, s)
  {
    match v
    case LiberateValue(b) => d.(liberate := b)
    case PlanetValue(p) => d.(planet := p)
    case TargetCountValue(n) => d.(targetCount := n)
    case RaceValue(f) => d.(race := f)
  }

  /** The slot a tag writes: PLANET, RACE, TARGET_COUNT and LIBERATE have one, every other tag none. */
  function SlotOf(t: Enums.ValueType): (r: Option<Slot>)
    ensures r.None? <==> t in {Enums.Unknown, Enums.UnitId, Enums.ItemId}
    ensures r == Some(PlanetSlot) <==> t == Enums.Planet
    ensures r == Some(RaceSlot) <==> t == Enums.Race
    ensures r == Some(TargetCountSlot) <==> t == Enums.TargetCount
    ensures r == Some(LiberateSlot) <==> t == Enums.Liberate
  {
    match t
    case Planet => Some(PlanetSlot)
    case Race => Some(RaceSlot)
    case TargetCount => Some(TargetCountSlot)
    case Liberate => Some(LiberateSlot)
    case _ => None
  }

  /** What one (tag, value) pair writes, if anything. */
  function DecodePair(ctx: Context, t: Enums.ValueType, x: int): (r: Option<SlotValue>)
    ensures r.Some? <==> SlotOf(t).Some?
    ensures r.Some? ==> SlotOfValue(r.value) == SlotOf(t).value
    ensures t == Enums.Planet ==> r == Some(PlanetValue(ctx.getPlanet(x, true)))
    ensures t == Enums.Race ==> r == Some(RaceValue(ctx.parseFaction(x)))
    ensures t == Enums.TargetCount ==> r == Some(TargetCountValue(Some(x)))
    ensures t == Enums.Liberate ==> r == Some(LiberateValue(Some(x != 0)))
  {
    match t
    case Planet => Some(PlanetValue(ctx.getPlanet(x, true)))
    case Race => Some(RaceValue(ctx.parseFaction(x)))
    case TargetCount => Some(TargetCountValue(Some(x)))
    case Liberate => Some(LiberateValue(Some(x != 0)))
    case _ => None
  }

  /** One iteration of the loop. */
  function Step(ctx: Context, d: TaskData, t: Enums.ValueType, x: int): (r: TaskData)
    ensures SlotOf(t).None? ==> r == d
    ensures SlotOf(t).Some? ==> Get(r, SlotOf(t).value) == DecodePair(ctx, t, x).value
    ensures forall s :: Some(s) != SlotOf(t) ==> Get(r, s) == Get(d, s)
  {
    match DecodePair(ctx, t, x)
    case None => d
    case Some(v) => Put(d, v)
  }

  function Min(a: int, b: int): int
  {
    if a <= b then a else b
  }

  /** The record after the first n pairs have been processed, starting from d0. */
  function ResolvePrefix(ctx: Context, tags: seq<Enums.ValueType>, values: seq<int>, n: nat, d0: TaskData): (r: TaskData)
    requires n <= |tags| && n <= |values|
    ensures (forall j :: 0 <= j < n ==> SlotOf(tags[j]).None?) ==> r == d0
  {
    if n == 0 then d0
    else Step(ctx, ResolvePrefix(ctx, tags, values, n - 1, d0), tags[n - 1], values[n - 1])
  }

  /** `for k, v in zip(value_types, values)`: every pair up to the shorter list's length. */
  function Resolve(ctx: Context, tags: seq<Enums.ValueType>, values: seq<int>, d0: TaskData): (r: TaskData)
    ensures (forall j :: 0 <= j < |tags| && j < |values| ==> SlotOf(tags[j]).None?) ==> r == d0
  {
    ResolvePrefix(ctx, tags, values, Min(|tags|, |values|), d0)
  }

  /** A slot no processed pair targets keeps the value it started with. */
  lemma {:induction false} UntouchedSlot(
    ctx: Context, tags: seq<Enums.ValueType>, values: seq<int>, n: nat, d0: TaskData, s: Slot)
    requires n <= |tags| && n <= |values|
    requires forall j :: 0 <= j < n ==> SlotOf(tags[j]) != Some(s)
    ensures Get(ResolvePrefix(ctx, tags, values, n, d0), s) == Get(d0, s)
  {
    if n > 0 {
      UntouchedSlot(ctx, tags, values, n - 1, d0, s);
    }
  }

  /** A slot holds what the last pair targeting it wrote. */
  lemma {:induction false} LastWriteWins(
    ctx: Context, tags: seq<Enums.ValueType>, values: seq<int>, n: nat, d0: TaskData, s: Slot, i: nat)
    requires n <= |tags| && n <= |values| && i < n
    requires SlotOf(tags[i]) == Some(s)
    requires forall j :: i < j < n ==> SlotOf(tags[j]) != Some(s)
    ensures Get(ResolvePrefix(ctx, tags, values, n, d0), s) == DecodePair(ctx, tags[i], values[i]).value
  {
    if i < n - 1 {
      LastWriteWins(ctx, tags, values, n - 1, d0, s, i);
    }
  }

  /** Among the first n tags, the last one that targets slot s, when there is one. */
  lemma {:induction false} LastWriter(tags: seq<Enums.ValueType>, n: nat, s: Slot) returns (i: nat)
    requires n <= |tags|
    requires exists k :: 0 <= k < n && SlotOf(tags[k]) == Some(s)
    ensures i < n && SlotOf(tags[i]) == Some(s)
    ensures forall j :: i < j < n ==> SlotOf(tags[j]) != Some(s)
  {
    if SlotOf(tags[n - 1]) == Some(s) {
      i := n - 1;
    } else {
      var k :| 0 <= k < n && SlotOf(tags[k]) == Some(s);
      assert k < n - 1;
      i := LastWriter(tags, n - 1, s);
    }
  }

  /** Only the pairs up to the shorter list's length matter; the excess of the longer list is unread. */
  lemma {:induction false} PrefixDetermines(
    ctx: Context, tags: seq<Enums.ValueType>, values: seq<int>,
    tags': seq<Enums.ValueType>, values': seq<int>, n: nat, d0: TaskData)
    requires n <= |tags| && n <= |values| && n <= |tags'| && n <= |values'|
    requires tags[..n] == tags'[..n] && values[..n] == values'[..n]
    ensures ResolvePrefix(ctx, tags, values, n, d0) == ResolvePrefix(ctx, tags', values', n, d0)
  {
    if n > 0 {
      assert tags[..n - 1] == tags[..n][..n - 1] && tags'[..n - 1] == tags'[..n][..n - 1];
      assert values[..n - 1] == values[..n][..n - 1] && values'[..n - 1] == values'[..n][..n - 1];
      assert tags[n - 1] == tags[..n][n - 1] && tags'[n - 1] == tags'[..n][n - 1];
      assert values[n - 1] == values[..n][n - 1] && values'[n - 1] == values'[..n][n - 1];
      PrefixDetermines(ctx, tags, values, tags', values', n - 1, d0);
    }
  }

  /** zip truncates: resolving the full lists equals resolving both cut to the shorter length. */
  lemma ResolveTruncates(ctx: Context, tags: seq<Enums.ValueType>, values: seq<int>, d0: TaskData)
    ensures var n := Min(|tags|, |values|);
      Resolve(ctx, tags, values, d0) == Resolve(ctx, tags[..n], values[..n], d0)
  {
    var n := Min(|tags|, |values|);
    assert tags[..n][..n] == tags[..n] && values[..n][..n] == values[..n];
    PrefixDetermines(ctx, tags, values, tags[..n], values[..n], n, d0);
  }

  /** Every slot of a resolved record, in terms of the pairs: when some pair up to the shorter
      length targets it, the value the last such pair (returned as `last`) wrote; otherwise the
      starting value. */
  lemma ResolvedSlot(ctx: Context, tags: seq<Enums.ValueType>, values: seq<int>, d0: TaskData, s: Slot)
    returns (last: Option<nat>)
    ensures last.None? <==> forall i :: 0 <= i < Min(|tags|, |values|) ==> SlotOf(tags[i]) != Some(s)
    ensures last.None? ==> Get(Resolve(ctx, tags, values, d0), s) == Get(d0, s)
    ensures last.Some? ==> last.value < Min(|tags|, |values|) && SlotOf(tags[last.value]) == Some(s)
    ensures last.Some? ==> forall j :: last.value < j < Min(|tags|, |values|) ==> SlotOf(tags[j]) != Some(s)
    ensures last.Some? ==>
      Get(Resolve(ctx, tags, values, d0), s) == DecodePair(ctx, tags[last.value], values[last.value]).value
  {
    var n := Min(|tags|, |values|);
    if exists i :: 0 <= i < n && SlotOf(tags[i]) == Some(s) {
      var i := LastWriter(tags, n, s);
      LastWriteWins(ctx, tags, values, n, d0, s, i);
      last := Some(i);
    } else {
      UntouchedSlot(ctx, tags, values, n, d0, s);
      last := None;
    }
  }

  /** Starting from the default record, resolution populates a slot only when some processed pair
      targets it; TARGET_COUNT and LIBERATE always store a present value, so for them it is iff. */
  lemma PopulatedSlots(ctx: Context, tags: seq<Enums.ValueType>, values: seq<int>)
    ensures var r, n := Resolve(ctx, tags, values, DefaultTaskData()), Min(|tags|, |values|);
      && (r.targetCount.Some? <==> exists i :: 0 <= i < n && tags[i] == Enums.TargetCount)
      && (r.liberate.Some? <==> exists i :: 0 <= i < n && tags[i] == Enums.Liberate)
      && (r.planet.Some? ==> exists i :: 0 <= i < n && tags[i] == Enums.Planet)
      && (r.race.Some? ==> exists i :: 0 <= i < n && tags[i] == Enums.Race)
  {
    var count := ResolvedSlot(ctx, tags, values, DefaultTaskData(), TargetCountSlot);
    var liberate := ResolvedSlot(ctx, tags, values, DefaultTaskData(), LiberateSlot);
    var planet := ResolvedSlot(ctx, tags, values, DefaultTaskData(), PlanetSlot);
    var race := ResolvedSlot(ctx, tags, values, DefaultTaskData(), RaceSlot);
  }

  /** `value_types=[RACE, TARGET_COUNT], values=[2, 50]` with faction code 2 decoding to Terminids. */
  lemma RaceAndTargetCountExample(ctx: Context)
    requires ctx.parseFaction(2) == Some(Enums.Terminids)
    ensures Resolve(ctx, [Enums.Race, Enums.TargetCount], [2, 50], DefaultTaskData())
         == TaskData(None, None, Some(50), Some(Enums.Terminids))
  {
    var tags, values := [Enums.Race, Enums.TargetCount], [2, 50];
    assert ResolvePrefix(ctx, tags, values, 1, DefaultTaskData()) == TaskData(None, None, None, Some(Enums.Terminids));
  }

  // ------------------------------------------------------------------ the mutable objects

  /** `AssignmentTaskData`: the record whose slots `model_post_init` assigns in place. */
  class AssignmentTaskData {
    var liberate: Option<bool>
    var planet: Option<Planet>
    var targetCount: Option<int>
    var race: Option<Enums.Faction>

    constructor (liberate: Option<bool>, planet: Option<Planet>, targetCount: Option<int>, race: Option<Enums.Faction>)
      ensures Value() == TaskData(liberate, planet, targetCount, race)
    {
      this.liberate, this.planet, this.targetCount, this.race := liberate, planet, targetCount, race;
    }

    /** The record's current slots as a value. */
    function Value(): TaskData
      reads this
    {
      TaskData(liberate, planet, targetCount, race)
    }
  }

  /** `AssignmentTask`: the validated wire fields and the task's own data record. */
  class AssignmentTask {
    const kind: Enums.AssignmentType
    const values: seq<int>
    const valueTypes: seq<Enums.ValueType>
    const data: AssignmentTaskData

    /** Field validation; every task gets its own copy of the all-None default record. */
    constructor (kind: Enums.AssignmentType, values: seq<int>, valueTypes: seq<Enums.ValueType>)
      ensures this.kind == kind && this.values == values && this.valueTypes == valueTypes
      ensures fresh(data) && data.Value() == DefaultTaskData()
    {
      this.kind, this.values, this.valueTypes := kind, values, valueTypes;
      data := new AssignmentTaskData(None, None, None, None);
    }

    /** `model_post_init`: without a client instance it raises before touching any slot;
        otherwise each pair of `zip(value_types, values)` overwrites the slot its tag names. */
    method PostInit(client: Option<Context>) returns (outcome: Outcome<Error>)
      modifies data
      ensures client.None? ==> outcome == Fail(ValueError(TaskClientMissing)) && unchanged(data)
      ensures client.Some? ==> outcome == Pass
      ensures client.Some? ==> data.Value() == Resolve(client.value, valueTypes, values, old(data.Value()))
    {
      if client.None? {
        return Fail(ValueError(TaskClientMissing));
      }
      var ctx := client.value;
      var n := Min(|valueTypes|, |values|);
      for i := 0 to n
        invariant data.Value() == ResolvePrefix(ctx, valueTypes, values, i, old(data.Value()))
      {
        var k, v := valueTypes[i], values[i];
        match k {
          case Planet => data.planet := ctx.getPlanet(v, true);
          case Race => data.race := ctx.parseFaction(v);
          case TargetCount => data.targetCount := Some(v);
          case Liberate => data.liberate := Some(v != 0);
          case _ =>
        }
      }
      outcome := Pass;
    }

    /** The decoded task as a value, as an assignment holds it. */
    function Record(): Task
      reads this, data
    {
      Task(kind, values, valueTypes, data.Value())
    }
  }

  /** Building an `AssignmentTask` from its validated fields: construction, then `model_post_init`,
      whose exception propagates out of the construction. */
  method NewAssignmentTask(
    kind: Enums.AssignmentType, values: seq<int>, valueTypes: seq<Enums.ValueType>, client: Option<Context>)
    returns (r: Result<AssignmentTask, Error>)
    ensures client.None? ==> r == Failure(ValueError(TaskClientMissing))
    ensures client.Some? ==> r.Success? && fresh(r.value) && fresh(r.value.data)
    ensures r.Success? ==> r.value.Record() == Task(kind, values, valueTypes, Resolve(client.value, valueTypes, values, DefaultTaskData()))
  {
    var task := new AssignmentTask(kind, values, valueTypes);
    var outcome := task.PostInit(client);
    if outcome.Fail? {
      return Failure(outcome.error);
    }
    r := Success(task);
  }
}
