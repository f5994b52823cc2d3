/** Battle members and the small formulas of src/state/combat/model.rs. */
module BattleModel {
  import opened Prelude

  const ALLY := 0
  const ENEMY := 1

  datatype Enemy = Enemy(breakGauge: int, maxBreakGauge: int, broken: bool)

  datatype Member = Member(id: int, kind: int, alive: bool, hp: int, maxHp: int, speed: int, enemy: Option<Enemy>)

  datatype Status = InBattle | Won | Lost

  function BaseWait(speed: int): int {
    57600 / Max(speed, 1)
  }

  function ActionWait(speed: int, skillWait: int): int {
    Max(BaseWait(speed) + skillWait, 0)
  }

  /** The speed table the sort reads: the first member with an id wins, an unknown id has speed 0. */
  type Speeds = map<int, int>

  function SpeedTable(members: seq<Member>): Speeds {
    if members == [] then map[] else SpeedTable(members[1..])[members[0].id := members[0].speed]
  }

  function SpeedOf(speeds: Speeds, id: int): int {
    if id in speeds then speeds[id] else 0
  }

  /** Position of the first member with this id. */
  function Find(members: seq<Member>, id: int): (r: Option<nat>)
    ensures r.Some? ==> r.value < |members| && members[r.value].id == id
                        && forall i | 0 <= i < r.value :: members[i].id != id
    ensures r.None? ==> forall i | 0 <= i < |members| :: members[i].id != id
  {
    if members == [] then None
    else if members[0].id == id then Some(0)
    else match Find(members[1..], id)
      case None => None
      case Some(k) => Some(k + 1)
  }

  predicate SomeAlive(members: seq<Member>, kind: int) {
    exists i | 0 <= i < |members| :: members[i].alive && members[i].kind == kind
  }

  /** An empty member list is refused; a battle without living allies is lost even when no enemy lives. */
  function BattleStatus(members: seq<Member>): Option<Status> {
    if members == [] then None
    else if !SomeAlive(members, ALLY) then Some(Lost)
    else if !SomeAlive(members, ENEMY) then Some(Won)
    else Some(InBattle)
  }

  /** A battle goes on while both sides have somebody alive; with no ally alive it is lost, else with no enemy alive won. */
  lemma {:induction false} StatusExactly(members: seq<Member>)
    ensures var allies, enemies := exists i | 0 <= i < |members| :: members[i].alive && members[i].kind == ALLY,
                                   exists i | 0 <= i < |members| :: members[i].alive && members[i].kind == ENEMY;
            && (BattleStatus(members) == Some(InBattle) <==> allies && enemies)
            && (BattleStatus(members) == Some(Won) <==> allies && !enemies)
            && (BattleStatus(members) == Some(Lost) <==> members != [] && !allies)
            && (BattleStatus(members) == None <==> members == [])
  {
  }
}
