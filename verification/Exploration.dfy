/** Exploration runs (src/state/activities/exploration.rs, battle.rs, street_expedition.rs): gathering, battles, talks. */
module Exploration {
  import opened Prelude

  const GATHERING := 0
  const BATTLE := 1
  const TALK := 2

  datatype Step = Step(area: int, kind: int, points: int, battle: Option<int>, exp: int, cole: int)

  datatype Party = Party(number: int, characters: seq<int>, hps: seq<int>, tools: seq<int>)

  datatype Expedition = Expedition(
    quest: int, party: Party, steps: seq<Step>, next: nat, gathered: set<int>, rewards: seq<(int, int, int)>,
    exp: int, turns: int, gauge: int, pending: bool, earned: map<int, int>)

  datatype Victory = Victory(battle: Option<int>, won: bool, hps: seq<int>, tools: seq<int>, gauge: int, turns: int)

  datatype Action =
    | Gather(area: int, point: int)
    | Fight(area: int, weakLevel: int)
    | Win(victory: Victory)
    | Flee
    | Regroup(party: Party)

  function SkipTalks(steps: seq<Step>, next: nat): (r: nat)
    ensures next <= r && (next <= |steps| ==> r <= |steps|)
    ensures r < |steps| ==> steps[r].kind != TALK
    ensures forall i | next <= i < r :: i < |steps| && steps[i].kind == TALK
    decreases |steps| - next
  {
    if next < |steps| && steps[next].kind == TALK then SkipTalks(steps, next + 1) else next
  }

  /** exploration_steps yields at least one step, each of one of the three kinds. */
  predicate Route(steps: seq<Step>) {
    steps != [] && forall i | 0 <= i < |steps| :: 0 <= steps[i].kind <= 2
  }

  /** The run as /exploration/start saves it. */
  function Begin(quest: int, party: Party, steps: seq<Step>): Expedition {
    Expedition(quest, party, steps, SkipTalks(steps, 0), {}, [], 0, 0, 500, false, map[])
  }

  function Advance(run: Expedition): Expedition {
    run.(next := SkipTalks(run.steps, run.next + 1), gathered := {})
  }

  function Earn(earned: map<int, int>, characters: seq<int>, exp: int): map<int, int>
    decreases |characters|
  {
    if characters == [] then earned
    else
      var id := characters[0];
      Earn(earned[id := (if id in earned then earned[id] else 0) + exp], characters[1..], exp)
  }

  /** What an action makes of a run; None where it is refused. */
  function Act(run: Expedition, a: Action): Option<Expedition> {
    var at := SkipTalks(run.steps, run.next);
    match a
    case Gather(area, point) =>
      if run.pending || at >= |run.steps| then None
      else
        var step := run.steps[at];
        if step.area != area || step.kind != GATHERING || !(0 <= point < step.points) || point in run.gathered then None
        else
          var more := run.(next := at, gathered := run.gathered + {point});
          Some(if |more.gathered| == step.points then Advance(more) else more)
    case Fight(area, weakLevel) =>
      if at >= |run.steps| || run.pending || run.steps[at].area != area || run.steps[at].kind != BATTLE || weakLevel != 0 then None
      else Some(run.(next := at, pending := true))
    case Win(v) =>
      if run.next >= |run.steps| || !run.pending || run.steps[run.next].battle != v.battle || !v.won then None
      else
        var step := run.steps[run.next];
        Some(run.(party := run.party.(hps := v.hps, tools := v.tools), gauge := v.gauge, exp := run.exp + step.exp,
                  earned := Earn(run.earned, run.party.characters, step.exp),
                  rewards := run.rewards + (if step.cole > 0 then [(3, 1, step.cole)] else []),
                  turns := run.turns + v.turns, pending := false, next := SkipTalks(run.steps, run.next + 1)))
    case Flee => Some(run.(pending := false))
    case Regroup(party) => if run.pending || run.turns > 0 then None else Some(run.(party := party))
  }

  predicate Finishable(run: Expedition) {
    !run.pending && SkipTalks(run.steps, run.next) == |run.steps|
  }

  // ----- what every run keeps ------------------------------------------------------------------

  /** The sum of `exp` over the battles among the first `n` steps. */
  function Won(steps: seq<Step>, n: nat): int
    requires n <= |steps|
  {
    if n == 0 then 0 else Won(steps, n - 1) + (if steps[n - 1].kind == BATTLE then steps[n - 1].exp else 0)
  }

  /** The coin rewards of the battles among the first `n` steps, in order. */
  function Loot(steps: seq<Step>, n: nat): seq<(int, int, int)>
    requires n <= |steps|
  {
    if n == 0 then []
    else Loot(steps, n - 1) + (if steps[n - 1].kind == BATTLE && steps[n - 1].cole > 0 then [(3, 1, steps[n - 1].cole)] else [])
  }

  function Below(points: int): (r: set<int>)
    ensures forall p :: p in r <==> 0 <= p < points
    ensures |r| == Max(points, 0)
    decreases Max(points, 0)
  {
    if points <= 0 then {} else Below(points - 1) + {points - 1}
  }

  /** The invariant: never at a talk, gathered points are a proper part of the current step's, a pending battle is the
   * current step, and the books are those of the battles passed. */
  predicate Sound(run: Expedition) {
    && Route(run.steps) && run.next <= |run.steps|
    && (run.next < |run.steps| ==> run.steps[run.next].kind != TALK)
    && (run.pending ==> run.next < |run.steps| && run.steps[run.next].kind == BATTLE)
    && (run.gathered != {} ==> run.next < |run.steps| && run.steps[run.next].kind == GATHERING
                               && run.gathered < Below(run.steps[run.next].points))
    && run.exp == Won(run.steps, run.next)
    && run.rewards == Loot(run.steps, run.next)
  }

  lemma {:induction false} SkippedTalksAddNothing(steps: seq<Step>, n: nat, m: nat)
    requires n <= m <= |steps| && forall i | n <= i < m :: steps[i].kind == TALK
    ensures Won(steps, n) == Won(steps, m) && Loot(steps, n) == Loot(steps, m)
    decreases m
  {
    if n < m {
      assert steps[m - 1].kind == TALK;
      SkippedTalksAddNothing(steps, n, m - 1);
    }
  }

  /** A proper part of the points is smaller than them, and a part as large as them is all of them. */
  lemma {:induction false} PartSizes(part: set<int>, points: int)
    requires part <= Below(points)
    ensures |part| <= Max(points, 0) && (part < Below(points) <==> |part| < Max(points, 0))
  {
    var rest := Below(points) - part;
    assert part + rest == Below(points) && part !! rest;
    if rest == {} { assert part == Below(points); }
  }

  lemma {:induction false} AdvanceSound(run: Expedition, next: Expedition)
    requires Sound(run) && run.next < |run.steps|
    requires next == Advance(run).(exp := Won(run.steps, run.next + 1), rewards := Loot(run.steps, run.next + 1),
                                   party := next.party, turns := next.turns, gauge := next.gauge, earned := next.earned, pending := false)
    ensures Sound(next)
  {
    hide Won, Loot;
    SkippedTalksAddNothing(run.steps, run.next + 1, next.next);
  }

  /** Every accepted action keeps the invariant, and so does the start. */
  lemma {:induction false} ActSound(run: Expedition, a: Action)
    requires Sound(run) && Act(run, a).Some?
    ensures Sound(Act(run, a).value)
    ensures Act(run, a).value.steps == run.steps && Act(run, a).value.quest == run.quest
  {
    hide Below, Loot, Won;
    var after := Act(run, a).value;
    match a
    case Gather(area, point) =>
      var points := run.steps[run.next].points;
      var more := run.gathered + {point};
      assert more <= Below(points);
      PartSizes(more, points);
      if |more| == points {
        PassedGathering(run);
        AdvanceSound(run, after);
      }
    case Fight(_, _) =>
    case Win(v) =>
      PassedBattle(run);
      AdvanceSound(run, after);
    case Flee =>
    case Regroup(_) =>
  }

  lemma {:induction false} PassedGathering(run: Expedition)
    requires Sound(run) && run.next < |run.steps| && run.steps[run.next].kind != BATTLE
    ensures Won(run.steps, run.next + 1) == run.exp && Loot(run.steps, run.next + 1) == run.rewards
  {
  }

  lemma {:induction false} PassedBattle(run: Expedition)
    requires Sound(run) && run.next < |run.steps| && run.steps[run.next].kind == BATTLE
    ensures Won(run.steps, run.next + 1) == run.exp + run.steps[run.next].exp
    ensures Loot(run.steps, run.next + 1)
            == run.rewards + (if run.steps[run.next].cole > 0 then [(3, 1, run.steps[run.next].cole)] else [])
    ensures run.gathered == {}
  {
  }

  lemma {:induction false} BeginSound(quest: int, party: Party, steps: seq<Step>)
    requires Route(steps)
    ensures Sound(Begin(quest, party, steps))
  {
    SkippedTalksAddNothing(steps, 0, SkipTalks(steps, 0));
  }

  // ----- how long a run takes ------------------------------------------------------------------

  /** Gathers and wins that the steps from `n` on take. */
  function Work(steps: seq<Step>, n: nat): nat
    requires n <= |steps|
    decreases |steps| - n
  {
    if n == |steps| then 0
    else (if steps[n].kind == GATHERING then Max(steps[n].points, 0) else if steps[n].kind == BATTLE then 1 else 0) + Work(steps, n + 1)
  }

  function Remaining(run: Expedition): int
    requires run.next <= |run.steps|
  {
    Work(run.steps, run.next) - |run.gathered|
  }

  lemma {:induction false} TalksTakeNothing(steps: seq<Step>, n: nat, m: nat)
    requires n <= m <= |steps| && forall i | n <= i < m :: steps[i].kind == TALK
    ensures Work(steps, n) == Work(steps, m)
    decreases m - n
  {
    if n < m { TalksTakeNothing(steps, n + 1, m); }
  }

  predicate Counts(a: Action) {
    a.Gather? || a.Win?
  }

  /** An accepted gather or win takes exactly one unit of the remaining work; nothing else takes any. */
  lemma {:induction false} ActWorks(run: Expedition, a: Action)
    requires Sound(run) && Act(run, a).Some?
    ensures Act(run, a).value.next <= |run.steps|
    ensures Remaining(Act(run, a).value) == Remaining(run) - (if Counts(a) then 1 else 0)
  {
    hide Below, Loot, Won, Work;
    ActSound(run, a);
    var after := Act(run, a).value;
    if run.next < |run.steps| {
      WorkStep(run.steps, run.next);
      if after.next > run.next { TalksTakeNothing(run.steps, run.next + 1, after.next); }
    }
    if a.Gather? {
      assert |run.gathered + {a.point}| == |run.gathered| + 1;
    }
  }

  lemma {:induction false} WorkStep(steps: seq<Step>, n: nat)
    requires n < |steps|
    ensures Work(steps, n) == (if steps[n].kind == GATHERING then Max(steps[n].points, 0) else if steps[n].kind == BATTLE then 1 else 0)
                              + Work(steps, n + 1)
  {
  }

  /** A history of one run; refused actions leave it as it is. */
  function Follow(run: Expedition, acts: seq<Action>): Expedition
    decreases |acts|
  {
    if acts == [] then run
    else Follow(match Act(run, acts[0]) case Some(next) => next case None => run, acts[1..])
  }

  /** Accepted gathers and wins. */
  function Done(run: Expedition, acts: seq<Action>): nat
    decreases |acts|
  {
    if acts == [] then 0
    else match Act(run, acts[0])
      case None => Done(run, acts[1..])
      case Some(next) => (if Counts(acts[0]) then 1 else 0) + Done(next, acts[1..])
  }

  /** Turns reported by accepted wins. */
  function Turns(run: Expedition, acts: seq<Action>): int
    decreases |acts|
  {
    if acts == [] then 0
    else match Act(run, acts[0])
      case None => Turns(run, acts[1..])
      case Some(next) => (if acts[0].Win? then acts[0].victory.turns else 0) + Turns(next, acts[1..])
  }

  lemma {:induction false} Accounting(run: Expedition, acts: seq<Action>)
    requires Sound(run)
    ensures var end := Follow(run, acts);
            Sound(end) && end.steps == run.steps && end.quest == run.quest
            && Remaining(end) == Remaining(run) - Done(run, acts) && end.turns == run.turns + Turns(run, acts)
    decreases |acts|
  {
    hide Sound, Work;
    if acts != [] {
      var next := match Act(run, acts[0]) case Some(next) => next case None => run;
      if Act(run, acts[0]).Some? {
        ActSound(run, acts[0]);
        ActWorks(run, acts[0]);
      }
      assert run.next <= |run.steps| && next.next <= |next.steps| by { Bounded(run); Bounded(next); }
      Accounting(next, acts[1..]);
      Bounded(Follow(run, acts));
    }
  }

  lemma {:induction false} Bounded(run: Expedition)
    requires Sound(run)
    ensures run.next <= |run.steps|
  {
  }

  /** A gathering step without points accepts no gather and is never passed. */
  predicate Blocks(step: Step) {
    step.kind == GATHERING && step.points <= 0
  }

  predicate Blocked(steps: seq<Step>) {
    exists i | 0 <= i < |steps| :: Blocks(steps[i])
  }

  lemma {:induction false} OpenWork(steps: seq<Step>, n: nat)
    requires n <= |steps| && !Blocked(steps)
    ensures Work(steps, n) >= 0 && (n < |steps| && steps[n].kind != TALK && Route(steps) ==> Work(steps, n) > 0)
  {
    if n < |steps| { assert !Blocks(steps[n]); }
  }

  /** An unblocked run is finishable exactly when no work remains. */
  lemma {:induction false} FinishableExactly(run: Expedition)
    requires Sound(run) && !Blocked(run.steps)
    ensures Remaining(run) >= 0 && (Finishable(run) <==> Remaining(run) == 0)
  {
    hide Won, Loot, Below;
    OpenWork(run.steps, run.next);
    if run.next < |run.steps| {
      assert !Blocks(run.steps[run.next]);
      if run.gathered != {} { PartSizes(run.gathered, run.steps[run.next].points); }
      WorkStep(run.steps, run.next);
    }
  }

  /**
   * Whole-run accounting. However gathers, battles, flights, party changes and refused requests interleave, the run is
   * finishable after exactly as many accepted gathers and wins as its steps hold points and battles; its experience and
   * coin rewards are those of the battles passed, and its turns those of the wins.
   */
  lemma {:induction false} WholeRun(quest: int, party: Party, steps: seq<Step>, acts: seq<Action>)
    requires Route(steps)
    ensures var run := Begin(quest, party, steps);
            var end := Follow(run, acts);
            && Sound(end) && end.steps == steps && end.turns == Turns(run, acts)
            && (!Blocked(steps) ==> Done(run, acts) <= Work(steps, 0) && (Finishable(end) <==> Done(run, acts) == Work(steps, 0)))
            && (Finishable(end) ==> end.exp == Won(steps, |steps|) && end.rewards == Loot(steps, |steps|))
  {
    hide Work, Won, Loot;
    var run := Begin(quest, party, steps);
    BeginSound(quest, party, steps);
    Accounting(run, acts);
    TalksTakeNothing(steps, 0, run.next);
    var end := Follow(run, acts);
    if !Blocked(steps) { FinishableExactly(end); }
  }

  /** From any point of an unblocked run there is a way to the end. */
  lemma {:induction false} WayOut(run: Expedition) returns (acts: seq<Action>)
    requires Sound(run) && !Blocked(run.steps)
    ensures Finishable(Follow(run, acts))
    decreases Work(run.steps, run.next) - |run.gathered|, if run.pending then 0 else 1
  {
    hide Won, Loot, Below, Work;
    FinishableExactly(run);
    if Remaining(run) == 0 {
      acts := [];
    } else {
      var step := run.steps[run.next];
      assert !Blocks(step);
      var a: Action;
      if run.pending {
        a := Win(Victory(step.battle, true, [], [], 0, 1));
      } else if step.kind == BATTLE {
        a := Fight(step.area, 0);
      } else {
        assert run.gathered < Below(step.points) by { PartSizes({}, step.points); }
        var point :| point in Below(step.points) && point !in run.gathered;
        a := Gather(step.area, point);
      }
      assert Act(run, a).Some?;
      ActSound(run, a);
      ActWorks(run, a);
      var rest := WayOut(Act(run, a).value);
      acts := [a] + rest;
      assert acts[1..] == rest;
    }
  }

  lemma {:induction false} NeverPast(run: Expedition, acts: seq<Action>, i: nat)
    requires Sound(run) && i < |run.steps| && Blocks(run.steps[i]) && run.next <= i
    ensures Follow(run, acts).next <= i && Follow(run, acts).steps == run.steps
    decreases |acts|
  {
    hide Won, Loot, Below;
    if acts != [] {
      if Act(run, acts[0]).Some? {
        ActSound(run, acts[0]);
        NeverPast(Act(run, acts[0]).value, acts[1..], i);
      } else {
        NeverPast(run, acts[1..], i);
      }
    }
  }

  /** Which routes can be finished at all: exactly those without a gathering step that has no points. */
  lemma {:induction false} FinishableRoutes(quest: int, party: Party, steps: seq<Step>)
    requires Route(steps)
    ensures (exists acts :: Finishable(Follow(Begin(quest, party, steps), acts))) <==> !Blocked(steps)
  {
    hide Follow, Won, Loot;
    BeginSound(quest, party, steps);
    var run := Begin(quest, party, steps);
    if Blocked(steps) {
      var i :| 0 <= i < |steps| && Blocks(steps[i]);
      forall acts ensures !Finishable(Follow(run, acts)) {
        NeverPast(run, acts, i);
      }
    } else {
      var acts := WayOut(run);
    }
  }

  // ----- experience of the participants --------------------------------------------------------

  predicate DistinctParty(party: Party) {
    forall i, j | 0 <= i < j < |party.characters| :: party.characters[i] != party.characters[j]
  }

  function Battles(steps: seq<Step>, n: nat): nat
    requires n <= |steps|
  {
    if n == 0 then 0 else Battles(steps, n - 1) + (if steps[n - 1].kind == BATTLE then 1 else 0)
  }

  /** Once a battle was won, exactly the party has earned, each member the whole experience; before that nobody has. */
  ghost predicate Shared(run: Expedition)
    requires run.next <= |run.steps|
  {
    if Battles(run.steps, run.next) == 0 then run.earned == map[]
    else
      && (forall id :: id in run.earned <==> id in run.party.characters)
      && (forall id | id in run.earned :: run.earned[id] == run.exp)
  }

  lemma {:induction false} EarnEach(earned: map<int, int>, characters: seq<int>, exp: int)
    requires forall i, j | 0 <= i < j < |characters| :: characters[i] != characters[j]
    ensures var r := Earn(earned, characters, exp);
            && (forall id :: id in r <==> id in earned || id in characters)
            && (forall id | id in r :: r[id] == (if id in earned then earned[id] else 0) + (if id in characters then exp else 0))
    decreases |characters|
  {
    if characters != [] {
      var id := characters[0];
      assert characters == [id] + characters[1..];
      assert id !in characters[1..];
      EarnEach(earned[id := (if id in earned then earned[id] else 0) + exp], characters[1..], exp);
    }
  }

  lemma {:induction false} NoTalkBattles(steps: seq<Step>, n: nat, m: nat)
    requires n <= m <= |steps| && forall i | n <= i < m :: steps[i].kind == TALK
    ensures Battles(steps, n) == Battles(steps, m)
    decreases m
  {
    if n < m { NoTalkBattles(steps, n, m - 1); }
  }

  lemma {:induction false} NothingWon(steps: seq<Step>, n: nat)
    requires n <= |steps| && Battles(steps, n) == 0
    ensures Won(steps, n) == 0
  {
    if n > 0 { NothingWon(steps, n - 1); }
  }

  /** An action keeps the shares when a win takes at least one turn. */
  lemma {:induction false} ActShares(run: Expedition, a: Action)
    requires Sound(run) && Act(run, a).Some? && Shared(run) && DistinctParty(run.party)
    requires run.turns >= Battles(run.steps, run.next)
    requires a.Win? ==> a.victory.turns >= 1
    requires a.Regroup? ==> DistinctParty(a.party)
    ensures var after := Act(run, a).value;
            after.next <= |after.steps| && Shared(after) && DistinctParty(after.party) && after.turns >= Battles(after.steps, after.next)
  {
    hide Won, Loot, Below, Earn, Battles;
    ActSound(run, a);
    var after := Act(run, a).value;
    if after.next > run.next {
      NoTalkBattles(run.steps, run.next + 1, after.next);
      BattlesStep(run.steps, run.next);
    }
    if a.Win? { WinShares(run, after, run.steps[run.next].exp); }
  }

  lemma {:induction false} WinShares(run: Expedition, after: Expedition, exp: int)
    requires run.next <= |run.steps| && Shared(run) && run.exp == Won(run.steps, run.next) && DistinctParty(run.party)
    requires after.next <= |after.steps| && Battles(after.steps, after.next) > 0
    requires after.party.characters == run.party.characters && after.exp == run.exp + exp
    requires after.earned == Earn(run.earned, run.party.characters, exp)
    ensures Shared(after)
  {
    hide Battles, Won, Earn;
    EarnEach(run.earned, run.party.characters, exp);
    if Battles(run.steps, run.next) == 0 { NothingWon(run.steps, run.next); }
  }

  lemma {:induction false} BattlesStep(steps: seq<Step>, n: nat)
    requires n < |steps|
    ensures Battles(steps, n + 1) == Battles(steps, n) + (if steps[n].kind == BATTLE then 1 else 0)
  {
  }

  /** In a history whose wins take turns, every participant has earned the experience of all battles won. */
  lemma {:induction false} RunShares(run: Expedition, acts: seq<Action>)
    requires Sound(run) && Shared(run) && DistinctParty(run.party) && run.turns >= Battles(run.steps, run.next)
    requires forall i | 0 <= i < |acts| :: (acts[i].Win? ==> acts[i].victory.turns >= 1) && (acts[i].Regroup? ==> DistinctParty(acts[i].party))
    ensures Sound(Follow(run, acts)) && Shared(Follow(run, acts))
    decreases |acts|
  {
    hide Sound, Shared, DistinctParty, Battles;
    if acts != [] {
      var rest := acts[1..];
      assert forall i | 0 <= i < |rest| :: rest[i] == acts[i + 1];
      Bounded(run);
      if Act(run, acts[0]).Some? {
        ActSound(run, acts[0]);
        ActShares(run, acts[0]);
        RunShares(Act(run, acts[0]).value, rest);
      } else {
        RunShares(run, rest);
      }
    }
  }

  // ----- all runs of an account ----------------------------------------------------------------

  /** Saved runs by quest, and the quest of the active battle. `stories` tells the exploration quests and whether each
   * belongs to the story. */
  datatype World = World(runs: map<int, Expedition>, active: Option<int>)

  datatype Event =
    | Start(quest: int, party: Party, control: Option<int>, allowed: bool, steps: seq<Step>)
    | OnRun(quest: int, action: Action)
    | Abandon(story: bool)  // the run with this story flag; NextSound shows that there is only one
    | Finish(quest: int)
    | OtherBattle(other: int)
    | OtherEnd

  function Next(stories: map<int, bool>, w: World, ev: Event): Option<World> {
    match ev
    case Start(q, party, control, allowed, steps) =>
      if q !in stories || !allowed || (exists id | id in w.runs :: w.runs[id].quest in stories && stories[w.runs[id].quest] == stories[q])
         || (control.Some? && control.value !in party.characters) then None
      else Some(w.(runs := w.runs[q := Begin(q, party, steps)]))
    case OnRun(q, a) =>
      if q !in stories then None
      else if a.Flee? then
        if w.active != Some(q) then None
        else Some(World(if q in w.runs then w.runs[q := Act(w.runs[q], a).value] else w.runs, None))
      else if q !in w.runs || (a.Fight? && w.active.Some?) || (a.Win? && w.active != Some(q)) then None
      else (match Act(w.runs[q], a)
        case None => None
        case Some(run) => Some(World(w.runs[q := run], if a.Fight? then Some(q) else if a.Win? then None else w.active)))
    case Abandon(story) =>
      if !(exists id | id in w.runs :: id in stories && stories[id] == story) then None
      else
        var gone := set id | id in w.runs && id in stories && stories[id] == story;
        if exists id | id in gone :: w.runs[id].pending then None else Some(w.(runs := w.runs - gone))
    case Finish(q) => if q !in w.runs || !Finishable(w.runs[q]) then None else Some(w.(runs := w.runs - {q}))
    case OtherBattle(other) => if w.active.Some? || other in stories then None else Some(w.(active := Some(other)))
    case OtherEnd => if w.active.None? || w.active.value in stories then None else Some(w.(active := None))
  }

  predicate WorldSound(stories: map<int, bool>, w: World) {
    && (forall id | id in w.runs :: id in stories && w.runs[id].quest == id && Sound(w.runs[id]))
    && (forall id | id in w.runs :: w.runs[id].pending <==> w.active == Some(id))
    && (forall a, b | a in w.runs && b in w.runs && stories[a] == stories[b] :: a == b)
    && (w.active.Some? && w.active.value in stories ==> w.active.value in w.runs)
  }

  predicate GoodEvent(ev: Event) {
    ev.Start? ==> Route(ev.steps)
  }

  /**
   * At every point of every history an account has at most one run with story and one without, each of them sound, and a
   * run is pending exactly while its battle is the active one: so at most one run is.
   */
  lemma {:induction false} OnRunSound(stories: map<int, bool>, w: World, q: int, a: Action)
    requires WorldSound(stories, w) && GoodEvent(OnRun(q, a)) && Next(stories, w, OnRun(q, a)).Some?
    ensures WorldSound(stories, Next(stories, w, OnRun(q, a)).value)
  {
    hide Sound, Route, Finishable;
    if q in w.runs && Act(w.runs[q], a).Some? { ActSound(w.runs[q], a); }
  }

  lemma {:induction false} NextSound(stories: map<int, bool>, w: World, ev: Event)
    requires WorldSound(stories, w) && GoodEvent(ev) && Next(stories, w, ev).Some?
    ensures WorldSound(stories, Next(stories, w, ev).value)
  {
    hide Sound, Route, Finishable;
    match ev
    case Start(q, party, _, _, steps) =>
      BeginSound(q, party, steps);
      assert forall id | id in w.runs :: w.runs[id].quest == id;
    case OnRun(q, a) => OnRunSound(stories, w, q, a);
    case Abandon(story) =>
      if w.active.Some? && w.active.value in stories {
        var id := w.active.value;
        assert w.active == Some(id) && id in w.runs && w.runs[id].pending;
      }
      var gone := set id | id in w.runs && id in stories && stories[id] == story;
      assert Next(stories, w, ev).value.runs == w.runs - gone;
      forall id | id in gone ensures w.active != Some(id) {
        assert !w.runs[id].pending;
      }
    case Finish(q) => assert !w.runs[q].pending by { FinishableIdle(w.runs[q]); }
    case OtherBattle(_) =>
    case OtherEnd =>
  }

  lemma {:induction false} FinishableIdle(run: Expedition)
    requires Finishable(run)
    ensures !run.pending
  {
  }

  function History(stories: map<int, bool>, w: World, evs: seq<Event>): World
    decreases |evs|
  {
    if evs == [] then w
    else History(stories, match Next(stories, w, evs[0]) case Some(next) => next case None => w, evs[1..])
  }

  lemma {:induction false} HistorySound(stories: map<int, bool>, w: World, evs: seq<Event>)
    requires WorldSound(stories, w) && forall i | 0 <= i < |evs| :: GoodEvent(evs[i])
    ensures WorldSound(stories, History(stories, w, evs))
    decreases |evs|
  {
    hide WorldSound, Next, GoodEvent;
    if evs != [] {
      var rest := evs[1..];
      assert forall i | 0 <= i < |rest| :: rest[i] == evs[i + 1];
      if Next(stories, w, evs[0]).Some? { NextSound(stories, w, evs[0]); }
      HistorySound(stories, match Next(stories, w, evs[0]) case Some(next) => next case None => w, rest);
    }
  }

  /** What each event changes: one run at most, and the active battle only where it says so. */
  lemma {:induction false} NextTouches(stories: map<int, bool>, w: World, ev: Event)
    requires WorldSound(stories, w) && Next(stories, w, ev).Some?
    ensures var next := Next(stories, w, ev).value;
            match ev
            case Start(q, party, _, allowed, steps) =>
              allowed && q !in w.runs && next.active == w.active && next.runs == w.runs[q := Begin(q, party, steps)]
            case OnRun(q, a) =>
              && (a.Flee? || a.Win? ==> w.active == Some(q) && next.active == None)
              && (a.Fight? ==> w.active == None && next.active == Some(q))
              && (!a.Flee? && !a.Win? && !a.Fight? ==> next.active == w.active)
              && q in w.runs && Act(w.runs[q], a).Some? && next.runs == w.runs[q := Act(w.runs[q], a).value]
            case Abandon(story) =>
              next.active == w.active
              && exists id | id in w.runs :: stories[id] == story && !w.runs[id].pending && next.runs == w.runs - {id}
            case Finish(q) => next.active == w.active && q in w.runs && Finishable(w.runs[q]) && next.runs == w.runs - {q}
            case OtherBattle(other) => next.runs == w.runs && w.active == None && next.active == Some(other)
            case OtherEnd => next.runs == w.runs && w.active != None && next.active == None
  {
    hide Sound, Finishable;
    match ev
    case Start(q, _, _, _, _) => assert forall id | id in w.runs :: w.runs[id].quest == id;
    case OnRun(q, a) =>
    case Abandon(story) =>
      var id :| id in w.runs && id in stories && stories[id] == story;
      var gone := set x | x in w.runs && x in stories && stories[x] == story;
      assert gone == {id} by {
        forall x | x in gone ensures x == id { }
      }
      assert id in gone && !w.runs[id].pending;
    case Finish(q) =>
    case OtherBattle(_) =>
    case OtherEnd =>
  }

  /** A run begins with the first step that is no talk, nothing gathered or earned, and a gauge of 500. */
  lemma {:induction false} BeginsFresh(quest: int, party: Party, steps: seq<Step>)
    ensures var run := Begin(quest, party, steps);
            && run.quest == quest && run.party == party && run.steps == steps && !run.pending && run.gauge == 500
            && run.gathered == {} && run.rewards == [] && run.earned == map[] && run.exp == 0 && run.turns == 0
            && run.next <= |steps| && (run.next < |steps| ==> steps[run.next].kind != TALK)
            && forall i | 0 <= i < run.next :: steps[i].kind == TALK
  {
  }

  /** A point that can be gathered now: of the step that is next, in its area, among its points, and not yet taken. */
  predicate Gatherable(run: Expedition, area: int, point: int)
    requires run.next <= |run.steps|
  {
    var at := SkipTalks(run.steps, run.next);
    !run.pending && at < |run.steps| && run.steps[at].kind == GATHERING && run.steps[at].area == area
    && 0 <= point < run.steps[at].points && point !in run.gathered
  }

  /** Nothing but the place on the route, the points of the step and the pending mark may differ. */
  predicate SameBooks(a: Expedition, b: Expedition) {
    b == a.(next := b.next, gathered := b.gathered, pending := b.pending)
  }

  ghost predicate PaidEach(x: map<int, int>, y: map<int, int>, ids: seq<int>, exp: int) {
    && (forall id :: id in y <==> id in x || id in ids)
    && (forall id | id in y :: y[id] == (if id in x then x[id] else 0) + (if id in ids then exp else 0))
  }

  // ----- the reducers --------------------------------------------------------------------------

  /** A saved run, updated in place. A refused action may leave talks skipped, which the caller discards. */
  class Runner {
    var run: Expedition

    /** skip_talks */
    method SkipTalk()
      requires run.next <= |run.steps|
      modifies this
      ensures run == old(run).(next := SkipTalks(old(run).steps, old(run).next))
    {
      while run.next < |run.steps| && run.steps[run.next].kind == TALK
        invariant run == old(run).(next := run.next) && run.next <= |run.steps|
        invariant SkipTalks(run.steps, run.next) == SkipTalks(old(run).steps, old(run).next)
        decreases |run.steps| - run.next
      {
        run := run.(next := run.next + 1);
      }
    }

    method Explore(area: int, point: int) returns (ok: bool)
      requires run.next <= |run.steps|
      modifies this
      ensures ok == Act(old(run), Gather(area, point)).Some?
      ensures ok ==> run == Act(old(run), Gather(area, point)).value
      ensures ok <==> Gatherable(old(run), area, point)
      ensures ok ==>
                var at := SkipTalks(old(run).steps, old(run).next);
                var found := old(run).gathered + {point};
                && SameBooks(old(run), run) && !run.pending
                && (if |found| == run.steps[at].points then run.gathered == {} && run.next == SkipTalks(run.steps, at + 1)
                    else run.gathered == found && run.next == at)
    {
      if run.pending { return false; }
      SkipTalk();
      if run.next >= |run.steps| { return false; }
      var step := run.steps[run.next];
      if step.area != area || step.kind != GATHERING || !(0 <= point < step.points) { return false; }
      if point in run.gathered { return false; }
      run := run.(gathered := run.gathered + {point});
      if |run.gathered| == step.points {
        run := run.(next := run.next + 1, gathered := {});
        SkipTalk();
      }
      ok := true;
    }

    method BattleStart(area: int, weakLevel: int) returns (ok: bool)
      requires run.next <= |run.steps|
      modifies this
      ensures ok == Act(old(run), Fight(area, weakLevel)).Some?
      ensures ok ==> run == Act(old(run), Fight(area, weakLevel)).value
      ensures var at := SkipTalks(old(run).steps, old(run).next);
              && (ok <==> at < |old(run).steps| && !old(run).pending && old(run).steps[at].area == area
                          && old(run).steps[at].kind == BATTLE && weakLevel == 0)
              && (ok ==> SameBooks(old(run), run) && run.pending && run.next == at && run.gathered == old(run).gathered)
    {
      SkipTalk();
      if run.next >= |run.steps| { return false; }
      var step := run.steps[run.next];
      if run.pending || step.area != area || step.kind != BATTLE || weakLevel != 0 { return false; }
      run := run.(pending := true);
      ok := true;
    }

    method BattleFinish(v: Victory) returns (ok: bool)
      modifies this
      ensures ok == Act(old(run), Win(v)).Some?
      ensures ok ==> run == Act(old(run), Win(v)).value
      ensures ok <==> old(run).next < |old(run).steps| && old(run).pending && v.won && old(run).steps[old(run).next].battle == v.battle
      ensures ok ==>
                var step := old(run).steps[old(run).next];
                && run.quest == old(run).quest && run.steps == old(run).steps && run.gathered == old(run).gathered
                && run.party == Party(old(run).party.number, old(run).party.characters, v.hps, v.tools) && run.gauge == v.gauge
                && run.exp == old(run).exp + step.exp && run.turns == old(run).turns + v.turns && !run.pending
                && run.rewards == old(run).rewards + (if step.cole > 0 then [(3, 1, step.cole)] else [])
                && run.next == SkipTalks(run.steps, old(run).next + 1)
                && (DistinctParty(old(run).party) ==> PaidEach(old(run).earned, run.earned, run.party.characters, step.exp))
    {
      if run.next >= |run.steps| { return false; }
      var step := run.steps[run.next];
      if !run.pending || step.battle != v.battle || !v.won { return false; }
      run := run.(party := run.party.(hps := v.hps, tools := v.tools), gauge := v.gauge, exp := run.exp + step.exp);
      var i := 0;
      var ids := run.party.characters;
      ghost var earned := run.earned;
      while i < |ids|
        invariant 0 <= i <= |ids| && run == old(run).(party := run.party, gauge := v.gauge, exp := run.exp, earned := run.earned)
        invariant run.party == old(run).party.(hps := v.hps, tools := v.tools) && run.exp == old(run).exp + step.exp
        invariant Earn(run.earned, ids[i..], step.exp) == Earn(earned, ids, step.exp)
      {
        assert ids[i..][1..] == ids[i + 1..];
        var before := if ids[i] in run.earned then run.earned[ids[i]] else 0;
        run := run.(earned := run.earned[ids[i] := before + step.exp]);
        i := i + 1;
      }
      if step.cole > 0 { run := run.(rewards := run.rewards + [(3, 1, step.cole)]); }
      run := run.(turns := run.turns + v.turns, pending := false, next := run.next + 1);
      SkipTalk();
      if DistinctParty(old(run).party) { EarnEach(earned, ids, step.exp); }
      ok := true;
    }

    method RetireBattle()
      modifies this
      ensures Some(run) == Act(old(run), Flee)
      ensures SameBooks(old(run), run) && !run.pending && run.next == old(run).next && run.gathered == old(run).gathered
    {
      run := run.(pending := false);
    }

    method UpdateParty(party: Party) returns (ok: bool)
      modifies this
      ensures ok == Act(old(run), Regroup(party)).Some?
      ensures ok ==> run == Act(old(run), Regroup(party)).value
      ensures ok <==> !old(run).pending && old(run).turns <= 0
      ensures run == if ok then old(run).(party := party) else old(run)
    {
      if run.pending || run.turns > 0 { return false; }
      run := run.(party := party);
      ok := true;
    }
  }
}
