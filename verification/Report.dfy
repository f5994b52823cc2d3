/** What a battle hands to the exploration that it belongs to (src/state/activities/battle.rs). */
module Report {
  import opened Prelude
  import opened BattleModel
  import opened Scheduler
  import Exploration

  /**
   * What a battle reports when it is over. It began at turn 1 and every request that could decide it left the counter at 2
   * or more, so a win has always taken turns: the premise of RunShares holds of every battle.
   */
  method OfBattle(st: BattleState, battle: Option<int>, tools: seq<int>, gauge: int) returns (v: Exploration.Victory)
    requires st.Turned()
    ensures v.won <==> BattleStatus(st.members) == Some(Status.Won) && st.wave == |st.waves|
    ensures v.battle == battle && v.tools == tools && v.gauge == gauge && v.turns == st.totalTurn
    ensures |v.hps| == |BattleState.Allies(st.members)|
            && forall i | 0 <= i < |v.hps| :: v.hps[i] == BattleState.Allies(st.members)[i].hp
    ensures v.won ==> v.turns >= 2
  {
    var allies := BattleState.Allies(st.members);
    v := Exploration.Victory(battle, BattleStatus(st.members) == Some(Status.Won) && st.wave == |st.waves|,
                 seq(|allies|, i requires 0 <= i < |allies| => allies[i].hp), tools, gauge, st.totalTurn);
  }
}
