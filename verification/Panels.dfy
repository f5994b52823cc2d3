/** The window over the periodic stream of timeline panels. */
module Panels {
  import opened Prelude

  /** Panel 11 is stored as an absent id. */
  datatype Panel = Panel(id: Option<int>, turn: int)

  const NEUTRAL := 11

  function Build(id: int, turn: int): Panel {
    Panel(if id == NEUTRAL then None else Some(id), turn)
  }

  function IdOf(p: Panel): int {
    if p.id.Some? then p.id.value else NEUTRAL
  }

  function CurrentPanelId(panels: seq<Panel>): int {
    if panels == [] then NEUTRAL else IdOf(panels[0])
  }

  /** The stream: turn t shows entry t - 1 of the cycle, and anything before turn 1 shows entry 0. */
  function StreamAt(ids: seq<int>, turn: int): Panel
    requires ids != []
  {
    Build(ids[Max(turn - 1, 0) % |ids|], turn)
  }

  /** set_timeline_panels: an empty cycle or count is refused. */
  function Window(ids: seq<int>, count: int, start: int): (r: Option<seq<Panel>>)
    ensures r.Some? <==> ids != [] && count > 0
  {
    if ids == [] || count <= 0 then None
    else Some(seq(count, i requires 0 <= i < count => StreamAt(ids, start + i)))
  }

  /** One panel is dropped and the next of the stream appended; an empty window is refused. */
  function Advance(ids: seq<int>, panels: seq<Panel>): (r: Option<seq<Panel>>)
    requires ids != []
    ensures r.Some? <==> panels != []
    ensures r.Some? ==> |r.value| == |panels|
  {
    if panels == [] then None
    else Some(panels[1..] + [StreamAt(ids, panels[|panels| - 1].turn + 1)])
  }

  function AdvanceBy(ids: seq<int>, panels: seq<Panel>, n: nat): Option<seq<Panel>>
    requires ids != []
    decreases n
  {
    if n == 0 then Some(panels)
    else match Advance(ids, panels)
      case None => None
      case Some(next) => AdvanceBy(ids, next, n - 1)
  }

  /** Advancing n times is the same as having opened the window n turns later. */
  lemma {:induction false} AdvanceSlides(ids: seq<int>, count: int, start: int, n: nat)
    requires ids != [] && count > 0
    ensures AdvanceBy(ids, Window(ids, count, start).value, n) == Window(ids, count, start + n)
    decreases n
  {
    if n > 0 {
      var w := Window(ids, count, start).value;
      var next := Advance(ids, w).value;
      var later := Window(ids, count, start + 1).value;
      forall i | 0 <= i < count ensures next[i] == later[i] {
        assert start + (i + 1) == (start + 1) + i;
        assert w[count - 1] == StreamAt(ids, start + (count - 1));
        assert later[i] == StreamAt(ids, (start + 1) + i);
        if i < count - 1 { assert next[i] == w[i + 1]; }
      }
      assert next == later;
      AdvanceSlides(ids, count, start + 1, n - 1);
    }
  }

  /** The panel in force on the n-th turn of a wave is entry n of the cycle, whatever the window length. */
  lemma {:induction false} CurrentPanelCycles(ids: seq<int>, count: int, n: nat)
    requires ids != [] && count > 0
    ensures AdvanceBy(ids, Window(ids, count, 1).value, n).Some?
    ensures CurrentPanelId(AdvanceBy(ids, Window(ids, count, 1).value, n).value) == ids[n % |ids|]
  {
    AdvanceSlides(ids, count, 1, n);
    var w := Window(ids, count, 1 + n).value;
    assert w[0] == StreamAt(ids, 1 + n);
  }
}
