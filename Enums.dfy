/** The integer-code enumerations of the assignment endpoint and the faction names
    (helldivepy/enums.py). */
module Enums {
  import opened Wrappers

  /** `BetterEnum.parse`: calling an enum class with a value finds the member with that
      value, in declaration order; a value no member has yields None instead of raising. */
  function ParseBy<T, K(==)>(members: seq<T>, key: T -> K, k: K): (r: Option<T>)
    ensures r.Some? ==> r.value in members && key(r.value) == k
    ensures r.None? <==> forall i :: 0 <= i < |members| ==> key(members[i]) != k
  {
    if members == [] then None
    else if key(members[0]) == k then Some(members[0])
    else ParseBy(members[1..], key, k)
  }

  /** Distinct members have distinct values. */
  ghost predicate KeysDistinct<T, K>(members: seq<T>, key: T -> K)
  {
    forall i, j :: 0 <= i < |members| && 0 <= j < |members| && key(members[i]) == key(members[j]) ==> i == j
  }

  /** The value of any member parses back to that member, when values are distinct. */
  lemma {:induction false} ParseByMember<T, K>(members: seq<T>, key: T -> K, m: T)
    requires KeysDistinct(members, key)
    requires m in members
    ensures ParseBy(members, key, key(m)) == Some(m)
  {
    var r := ParseBy(members, key, key(m));
    var i :| 0 <= i < |members| && members[i] == m;
    assert r.Some? by { assert key(members[i]) == key(m); }
    var j :| 0 <= j < |members| && members[j] == r.value;
    assert key(members[j]) == key(members[i]);
  }

  // ---------------------------------------------------------------- ValueTypes

  /** Types of values returned from the assignments endpoint. */
  datatype ValueType = Race | Unknown | TargetCount | UnitId | ItemId | Liberate | Planet
  {
    function Code(): int
    {
      match this
      case Race => 1
      case Unknown => 2
      case TargetCount => 3
      case UnitId => 4
      case ItemId => 5
      case Liberate => 11
      case Planet => 12
    }
  }

  const ValueTypeMembers: seq<ValueType> := [Race, Unknown, TargetCount, UnitId, ItemId, Liberate, Planet]

  function ParseValueType(c: int): (r: Option<ValueType>)
    ensures r.Some? ==> r.value.Code() == c
    ensures r.None? <==> c !in {1, 2, 3, 4, 5, 11, 12}
  {
    ParseBy(ValueTypeMembers, (m: ValueType) => m.Code(), c)
  }

  lemma ValueTypeRoundTrip(m: ValueType)
    ensures ParseValueType(m.Code()) == Some(m)
  {
    ParseByMember(ValueTypeMembers, (v: ValueType) => v.Code(), m);
  }

  // --------------------------------------------------------------- RewardTypes

  /** Types of rewards given out by assignments. */
  datatype RewardType = Medals
  {
    function Code(): int
    {
      match this
      case Medals => 1
    }
  }

  const RewardTypeMembers: seq<RewardType> := [Medals]

  function ParseRewardType(c: int): (r: Option<RewardType>)
    ensures r.Some? <==> c == 1
    ensures r.Some? ==> r.value == Medals
  {
    ParseBy(RewardTypeMembers, (m: RewardType) => m.Code(), c)
  }

  // ----------------------------------------------------------- AssignmentTypes

  /** Types of assignment tasks. */
  datatype AssignmentType = Eradicate | Liberation | Defense | Control
  {
    function Code(): int
    {
      match this
      case Eradicate => 3
      case Liberation => 11
      case Defense => 12
      case Control => 13
    }
  }

  const AssignmentTypeMembers: seq<AssignmentType> := [Eradicate, Liberation, Defense, Control]

  function ParseAssignmentType(c: int): (r: Option<AssignmentType>)
    ensures r.Some? ==> r.value.Code() == c
    ensures r.None? <==> c !in {3, 11, 12, 13}
  {
    ParseBy(AssignmentTypeMembers, (m: AssignmentType) => m.Code(), c)
  }

  lemma AssignmentTypeRoundTrip(m: AssignmentType)
    ensures ParseAssignmentType(m.Code()) == Some(m)
  {
    ParseByMember(AssignmentTypeMembers, (v: AssignmentType) => v.Code(), m);
  }

  // --------------------------------------------------------------- FactionType

  /** `FactionType`: a literal type admitting exactly four names. */
  datatype Faction = Humans | Terminids | Automaton | Illuminate
  {
    function Name(): string
    {
      match this
      case Humans => "Humans"
      case Terminids => "Terminids"
      case Automaton => "Automaton"
      case Illuminate => "Illuminate"
    }
  }

  const FactionNames: set<string> := {"Humans", "Terminids", "Automaton", "Illuminate"}

  const FactionMembers: seq<Faction> := [Humans, Terminids, Automaton, Illuminate]

  /** Admission of a string to the literal type: exactly the four names are accepted. */
  function FactionFromName(s: string): (r: Option<Faction>)
    ensures r.Some? <==> s in FactionNames
    ensures r.Some? ==> r.value.Name() == s
  {
    ParseBy(FactionMembers, (f: Faction) => f.Name(), s)
  }

  lemma FactionNameRoundTrip(f: Faction)
    ensures f.Name() in FactionNames
    ensures FactionFromName(f.Name()) == Some(f)
  {
    ParseByMember(FactionMembers, (g: Faction) => g.Name(), f);
  }
}
