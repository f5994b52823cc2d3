/** Gacha odds (src/state/gacha/draw.rs) and the weighted draws (also src/state/activities/story.rs). */
module Odds {
  import opened Prelude
  import opened Counting
  import opened Division

  const TOTAL_UNITS := 100000
  const U32 := 0x1_0000_0000

  datatype Card = Card(kind: int, id: int, rarity: int)

  datatype Rate = Rate(rateSet: int, basisPoints: int, cards: seq<Card>)

  datatype Gacha = Gacha(id: int, rateSet: int, stepUp: bool, wishCounts: (nat, nat), skinCount: nat,
                         characters: seq<int>, memoria: seq<int>, selectCount: int)

  datatype WishList = WishList(gacha: int, characters: seq<int>, memoria: seq<int>, skins: seq<int>)

  type Weighted = seq<(Card, nat)>

  function Total(ws: Weighted): nat {
    if ws == [] then 0 else ws[0].1 + Total(ws[1..])
  }

  lemma {:induction false} TotalConcat(a: Weighted, b: Weighted)
    ensures Total(a + b) == Total(a) + Total(b)
  {
    if a == [] { assert a + b == b; } else {
      assert (a + b)[1..] == a[1..] + b;
      TotalConcat(a[1..], b);
    }
  }

  // ----- even distribution ---------------------------------------------------------------------

  /** distribute_cards: an even share each, and one unit more for the first ones. */
  function Distribute(cards: seq<Card>, total: int): Option<Weighted> {
    if cards == [] || total < |cards| then None
    else
      var base, remainder := total / |cards|, total % |cards|;
      Some(seq(|cards|, i requires 0 <= i < |cards| => (cards[i], base + (if i < remainder then 1 else 0))))
  }

  lemma {:induction false} StairTotal(ws: Weighted, base: nat, extra: nat)
    requires extra <= |ws| && forall i | 0 <= i < |ws| :: ws[i].1 == base + (if i < extra then 1 else 0)
    ensures Total(ws) == base * |ws| + extra
  {
    if ws != [] {
      var rest := ws[1..];
      assert forall i | 0 <= i < |rest| :: rest[i] == ws[i + 1];
      StairTotal(rest, base, if extra > 0 then extra - 1 else 0);
      assert base * |ws| == base * |rest| + base;
    }
  }

  /** The shares keep the order of the cards, add up to the total, are at least one, and differ by at most one. */
  lemma {:induction false} Stairs(cards: seq<Card>, total: int, base: int, extra: int)
    requires cards != [] && total >= |cards| && base == total / |cards| && extra == total % |cards|
    ensures Distribute(cards, total).Some?
    ensures var r := Distribute(cards, total).value;
            |r| == |cards| && forall i | 0 <= i < |cards| :: r[i] == (cards[i], base + (if i < extra then 1 else 0))
    ensures base >= 1 && 0 <= extra < |cards| && base * |cards| + extra == total
  {
    QuotientMonotone(|cards|, total, |cards|);
    assert |cards| / |cards| == 1 by { QuotientIs(|cards|, |cards|, 1, 0); }
  }

  lemma {:induction false} DistributeIsFair(cards: seq<Card>, total: int)
    ensures Distribute(cards, total).Some? <==> cards != [] && total >= |cards|
    ensures var r := Distribute(cards, total);
            r.Some? ==>
              && |r.value| == |cards| && Total(r.value) == total
              && (forall i | 0 <= i < |cards| :: r.value[i].0 == cards[i] && r.value[i].1 >= 1)
              && (forall i, j | 0 <= i <= j < |cards| :: r.value[j].1 <= r.value[i].1 <= r.value[j].1 + 1)
  {
    if cards != [] && total >= |cards| {
      hide Distribute;
      var base, remainder := total / |cards|, total % |cards|;
      Stairs(cards, total, base, remainder);
      StairTotal(Distribute(cards, total).value, base, remainder);
    }
  }

  // ----- the odds of one gacha -----------------------------------------------------------------

  predicate Distinct(ids: seq<int>) {
    forall i, j | 0 <= i < j < |ids| :: ids[i] != ids[j]
  }

  /** validate_wish_list */
  predicate ValidWish(g: Gacha, w: WishList) {
    && w.gacha == g.id
    && (if g.stepUp then (|w.characters|, |w.memoria|) == g.wishCounts && |w.skins| == g.skinCount
        else |w.characters| + |w.memoria| + |w.skins| == g.selectCount)
    && (forall i | 0 <= i < |w.characters| :: w.characters[i] in g.characters)
    && (forall i | 0 <= i < |w.memoria| :: w.memoria[i] in g.memoria)
    && w.skins == [] && Distinct(w.characters) && Distinct(w.memoria)
  }

  /** The first card of a kind and id in any rate row. */
  function FindCard(rates: seq<Rate>, kind: int, id: int): Option<Card> {
    if rates == [] then None
    else match FindIn(rates[0].cards, kind, id)
      case Some(c) => Some(c)
      case None => FindCard(rates[1..], kind, id)
  }

  function FindIn(cards: seq<Card>, kind: int, id: int): (r: Option<Card>)
    ensures r.Some? ==> r.value.kind == kind && r.value.id == id
  {
    if cards == [] then None
    else if cards[0].kind == kind && cards[0].id == id then Some(cards[0])
    else FindIn(cards[1..], kind, id)
  }

  function PickupWeight(selected: seq<int>, id: int): nat {
    if id in selected then 1000 else 250
  }

  function Pickups(rates: seq<Rate>, kind: int, pickups: seq<int>, selected: seq<int>): Option<Weighted> {
    if pickups == [] then Some([])
    else match FindCard(rates, kind, pickups[0])
      case None => None
      case Some(card) =>
        match Pickups(rates, kind, pickups[1..], selected)
        case None => None
        case Some(rest) => Some([(card, PickupWeight(selected, card.id))] + rest)
  }

  function Without(cards: seq<Card>, ids: seq<int>): seq<Card> {
    if cards == [] then [] else (if cards[0].id in ids then [] else [cards[0]]) + Without(cards[1..], ids)
  }

  /** The odds of one rate row. */
  function RowOdds(rates: seq<Rate>, g: Gacha, wish: Option<WishList>, rate: Rate): Option<Weighted> {
    if rate.basisPoints < 0 || rate.cards == [] then None
    else
      var units, first := rate.basisPoints * 10, rate.cards[0];
      if g.selectCount == 0 || first.rarity != 3 then Distribute(rate.cards, units)
      else if wish.None? || !ValidWish(g, wish.value) then None
      else
        var pickups, selected := if first.kind == 4 then g.characters else g.memoria,
                                 if first.kind == 4 then wish.value.characters else wish.value.memoria;
        match Pickups(rates, first.kind, pickups, selected)
        case None => None
        case Some(fixed) =>
          match Distribute(Without(rate.cards, pickups), units - Total(fixed))
          case None => None
          case Some(normal) => Some(fixed + normal)
  }

  function AllOdds(rates: seq<Rate>, rows: seq<Rate>, g: Gacha, wish: Option<WishList>): Option<Weighted> {
    if rows == [] then Some([])
    else if rows[0].rateSet != g.rateSet then AllOdds(rates, rows[1..], g, wish)
    else match RowOdds(rates, g, wish, rows[0])
      case None => None
      case Some(odds) =>
        match AllOdds(rates, rows[1..], g, wish)
        case None => None
        case Some(rest) => Some(odds + rest)
  }

  /** weighted_gacha_cards */
  function GachaOdds(rates: seq<Rate>, g: Gacha, wish: Option<WishList>): Option<Weighted> {
    match AllOdds(rates, rates, g, wish)
    case None => None
    case Some(odds) => if Total(odds) != TOTAL_UNITS then None else Some(odds)
  }

  /** The basis points of the rows of a rate set. */
  function BasisPoints(rows: seq<Rate>, rateSet: int): int {
    if rows == [] then 0 else (if rows[0].rateSet == rateSet then rows[0].basisPoints else 0) + BasisPoints(rows[1..], rateSet)
  }

  /** Whatever the wish list, a row hands out exactly its share, and every card of it has a chance. */
  lemma {:induction false} RowTotal(rates: seq<Rate>, g: Gacha, wish: Option<WishList>, rate: Rate)
    requires RowOdds(rates, g, wish, rate).Some?
    ensures Total(RowOdds(rates, g, wish, rate).value) == rate.basisPoints * 10
    ensures forall i | 0 <= i < |RowOdds(rates, g, wish, rate).value| :: RowOdds(rates, g, wish, rate).value[i].1 >= 1
  {
    hide Distribute, Total, ValidWish, Without, Pickups;
    var units, first := rate.basisPoints * 10, rate.cards[0];
    if g.selectCount == 0 || first.rarity != 3 {
      DistributeIsFair(rate.cards, units);
    } else {
      var pickups, selected := if first.kind == 4 then g.characters else g.memoria,
                               if first.kind == 4 then wish.value.characters else wish.value.memoria;
      var fixed := Pickups(rates, first.kind, pickups, selected).value;
      PickupsWeigh(rates, first.kind, pickups, selected);
      DistributeIsFair(Without(rate.cards, pickups), units - Total(fixed));
      TotalConcat(fixed, Distribute(Without(rate.cards, pickups), units - Total(fixed)).value);
    }
  }

  lemma {:induction false} PickupsWeigh(rates: seq<Rate>, kind: int, pickups: seq<int>, selected: seq<int>)
    requires Pickups(rates, kind, pickups, selected).Some?
    ensures var r := Pickups(rates, kind, pickups, selected).value;
            |r| == |pickups| && forall i | 0 <= i < |r| :: r[i].0.kind == kind && r[i].0.id == pickups[i]
                                                            && r[i].1 == PickupWeight(selected, pickups[i])
  {
    if pickups != [] {
      CardFound(rates, kind, pickups[0]);
      PickupsWeigh(rates, kind, pickups[1..], selected);
    }
  }

  lemma {:induction false} CardFound(rates: seq<Rate>, kind: int, id: int)
    ensures FindCard(rates, kind, id).Some? ==> FindCard(rates, kind, id).value.kind == kind && FindCard(rates, kind, id).value.id == id
  {
    if rates != [] { CardFound(rates[1..], kind, id); }
  }

  lemma {:induction false} AllTotal(rates: seq<Rate>, rows: seq<Rate>, g: Gacha, wish: Option<WishList>)
    ensures AllOdds(rates, rows, g, wish).Some? <==>
              forall i | 0 <= i < |rows| && rows[i].rateSet == g.rateSet :: RowOdds(rates, g, wish, rows[i]).Some?
    ensures var r := AllOdds(rates, rows, g, wish);
            r.Some? ==> Total(r.value) == 10 * BasisPoints(rows, g.rateSet) && forall i | 0 <= i < |r.value| :: r.value[i].1 >= 1
  {
    hide RowOdds, Total;
    if rows == [] {
      assert Total([]) == 0 by { EmptyTotal(); }
    } else {
      assert rows == [rows[0]] + rows[1..];
      AllTotal(rates, rows[1..], g, wish);
      if rows[0].rateSet == g.rateSet && RowOdds(rates, g, wish, rows[0]).Some? && AllOdds(rates, rows[1..], g, wish).Some? {
        RowTotal(rates, g, wish, rows[0]);
        TotalConcat(RowOdds(rates, g, wish, rows[0]).value, AllOdds(rates, rows[1..], g, wish).value);
      }
    }
  }

  lemma {:induction false} EmptyTotal()
    ensures Total([]) == 0
  {
  }

  /**
   * The odds of a gacha exist exactly when each of its rows can be dealt out and its rows make up 10,000 basis points;
   * then they fill the draw space of 100,000 units, wished-for pickups included, and no card is without a chance.
   */
  lemma {:induction false} GachaOddsExactly(rates: seq<Rate>, g: Gacha, wish: Option<WishList>)
    ensures GachaOdds(rates, g, wish).Some? <==>
              && BasisPoints(rates, g.rateSet) == 10000
              && forall i | 0 <= i < |rates| && rates[i].rateSet == g.rateSet :: RowOdds(rates, g, wish, rates[i]).Some?
    ensures var r := GachaOdds(rates, g, wish);
            r.Some? ==> Total(r.value) == TOTAL_UNITS && forall i | 0 <= i < |r.value| :: r.value[i].1 >= 1
  {
    hide RowOdds, Total, AllOdds;
    AllTotal(rates, rates, g, wish);
  }

  // ----- which card gets which weight ----------------------------------------------------------

  /** All the weight that a list of odds gives to cards with this id. */
  function WeightOf(ws: Weighted, id: int): nat {
    if ws == [] then 0 else (if ws[0].0.id == id then ws[0].1 else 0) + WeightOf(ws[1..], id)
  }

  function CardsOf(ws: Weighted): (r: seq<Card>)
    ensures |r| == |ws| && forall i | 0 <= i < |r| :: r[i] == ws[i].0
  {
    seq(|ws|, i requires 0 <= i < |ws| => ws[i].0)
  }

  function NotAmong(ids: seq<int>): Card -> bool {
    (c: Card) => c.id !in ids
  }

  /** Cards whose id is not listed stand in both as often. */
  ghost predicate SameOthers(a: seq<Card>, b: seq<Card>, ids: seq<int>) {
    forall c: Card | c.id !in ids :: multiset(a)[c] == multiset(b)[c]
  }

  /**
   * How a pickup row is dealt: each pickup has 1,000 units if it was wished for and 250 if not, wherever its card stands;
   * each other card of the row has one share for each time it stands there, the shares differ by at most one unit, and
   * nobody else has any.
   */
  ghost predicate Dealt(r: Weighted, cards: seq<Card>, kind: int, pickups: seq<int>, selected: seq<int>, units: int) {
    var n := |pickups|;
    && n <= |r| && Total(r) == units
    && (forall i | 0 <= i < n :: r[i].0.kind == kind && r[i].0.id == pickups[i] && r[i].1 == if pickups[i] in selected then 1000 else 250)
    && (forall i | n <= i < |r| :: r[i].0.id !in pickups && r[i].1 >= 1)
    && SameOthers(CardsOf(r[n..]), cards, pickups)
    && (forall i, j | n <= i <= j < |r| :: r[j].1 <= r[i].1 <= r[j].1 + 1)
  }

  lemma {:induction false} WithoutKeeps(cards: seq<Card>, ids: seq<int>)
    ensures forall i | 0 <= i < |Without(cards, ids)| :: Without(cards, ids)[i].id !in ids
    ensures forall c: Card :: multiset(Without(cards, ids))[c] == if c.id in ids then 0 else multiset(cards)[c]
    ensures |Without(cards, ids)| == Count(cards, NotAmong(ids))
  {
    if cards != [] {
      WithoutKeeps(cards[1..], ids);
      assert cards == [cards[0]] + cards[1..];
    }
  }

  lemma {:induction false} OthersStay(cards: seq<Card>, ids: seq<int>)
    ensures SameOthers(Without(cards, ids), cards, ids)
    ensures forall i | 0 <= i < |Without(cards, ids)| :: Without(cards, ids)[i].id !in ids
  {
    WithoutKeeps(cards, ids);
  }

  lemma {:induction false} PickupRowDealt(rates: seq<Rate>, g: Gacha, wish: Option<WishList>, rate: Rate)
    requires RowOdds(rates, g, wish, rate).Some? && g.selectCount != 0 && rate.cards[0].rarity == 3
    ensures wish.Some? && ValidWish(g, wish.value)
    ensures var r, units := RowOdds(rates, g, wish, rate).value, rate.basisPoints * 10;
            && (rate.cards[0].kind == 4 ==> Dealt(r, rate.cards, 4, g.characters, wish.value.characters, units))
            && (rate.cards[0].kind != 4 ==> Dealt(r, rate.cards, rate.cards[0].kind, g.memoria, wish.value.memoria, units))
  {
    hide Distribute, Total, ValidWish, Without, Pickups;
    var units, kind := rate.basisPoints * 10, rate.cards[0].kind;
    var pickups, selected := if kind == 4 then g.characters else g.memoria, if kind == 4 then wish.value.characters else wish.value.memoria;
    var fixed := Pickups(rates, kind, pickups, selected).value;
    PickupsWeigh(rates, kind, pickups, selected);
    var others := Without(rate.cards, pickups);
    OthersStay(rate.cards, pickups);
    DistributeIsFair(others, units - Total(fixed));
    var normal := Distribute(others, units - Total(fixed)).value;
    RowTotal(rates, g, wish, rate);
    hide RowOdds, Dealt, PickupWeight, SameOthers;
    InTwoParts(fixed, normal, rate.cards, others, kind, pickups, selected, units);
  }

  lemma {:induction false} InTwoParts(fixed: Weighted, normal: Weighted, cards: seq<Card>, others: seq<Card>, kind: int,
                                      pickups: seq<int>, selected: seq<int>, units: int)
    requires |fixed| == |pickups| && Total(fixed + normal) == units
    requires forall i | 0 <= i < |fixed| :: fixed[i].0.kind == kind && fixed[i].0.id == pickups[i] && fixed[i].1 == PickupWeight(selected, pickups[i])
    requires |normal| == |others| && forall i | 0 <= i < |normal| :: normal[i].0 == others[i] && normal[i].1 >= 1 && others[i].id !in pickups
    requires forall i, j | 0 <= i <= j < |normal| :: normal[j].1 <= normal[i].1 <= normal[j].1 + 1
    requires SameOthers(others, cards, pickups)
    ensures Dealt(fixed + normal, cards, kind, pickups, selected, units)
  {
    hide Total, SameOthers;
    var r, n := fixed + normal, |pickups|;
    assert r[n..] == normal && CardsOf(normal) == others;
    assert forall i | n <= i < |r| :: r[i] == normal[i - n];
    assert forall i | 0 <= i < n :: r[i] == fixed[i];
  }

  /** In a plain row every card has one share, in order, and the shares differ by at most one unit. */
  lemma {:induction false} PlainRowDealt(rates: seq<Rate>, g: Gacha, wish: Option<WishList>, rate: Rate)
    requires RowOdds(rates, g, wish, rate).Some? && (g.selectCount == 0 || rate.cards[0].rarity != 3)
    ensures var r := RowOdds(rates, g, wish, rate).value;
            CardsOf(r) == rate.cards && Total(r) == rate.basisPoints * 10
            && forall i, j | 0 <= i <= j < |r| :: r[j].1 <= r[i].1 <= r[j].1 + 1
  {
    hide Distribute, Total;
    DistributeIsFair(rate.cards, rate.basisPoints * 10);
  }

  /** A pickup has its weight from its own entry alone, so wishing for it is worth 750 units more. */
  lemma {:induction false} PickupWeighs(r: Weighted, cards: seq<Card>, kind: int, pickups: seq<int>, selected: seq<int>, units: int, id: int)
    requires Dealt(r, cards, kind, pickups, selected, units) && Distinct(pickups) && id in pickups
    ensures WeightOf(r, id) == if id in selected then 1000 else 250
  {
    hide Total, CardsOf;
    var k :| 0 <= k < |pickups| && pickups[k] == id;
    OneEntry(r, k, id);
  }

  lemma {:induction false} OneEntry(ws: Weighted, k: nat, id: int)
    requires k < |ws| && ws[k].0.id == id && forall i | 0 <= i < |ws| && i != k :: ws[i].0.id != id
    ensures WeightOf(ws, id) == ws[k].1
  {
    var rest := ws[1..];
    assert forall i | 0 <= i < |rest| :: rest[i] == ws[i + 1];
    if k > 0 { OneEntry(rest, k - 1, id); } else { NoEntry(rest, id); }
  }

  lemma {:induction false} NoEntry(ws: Weighted, id: int)
    requires forall i | 0 <= i < |ws| :: ws[i].0.id != id
    ensures WeightOf(ws, id) == 0
  {
    if ws != [] {
      var rest := ws[1..];
      assert forall i | 0 <= i < |rest| :: rest[i] == ws[i + 1];
      NoEntry(rest, id);
    }
  }

  /** The rows of the rate set are dealt one after the other, in the order of the table, and no other row is. */
  lemma {:induction false} RowsInOrder(rates: seq<Rate>, a: seq<Rate>, b: seq<Rate>, g: Gacha, wish: Option<WishList>)
    ensures AllOdds(rates, a + b, g, wish)
            == match (AllOdds(rates, a, g, wish), AllOdds(rates, b, g, wish))
               case (Some(x), Some(y)) => Some(x + y)
               case _ => None
    decreases |a|
  {
    hide RowOdds;
    if a == [] {
      assert a + b == b;
      if AllOdds(rates, b, g, wish).Some? { assert [] + AllOdds(rates, b, g, wish).value == AllOdds(rates, b, g, wish).value; }
    } else {
      assert (a + b)[1..] == a[1..] + b;
      RowsInOrder(rates, a[1..], b, g, wish);
      if a[0].rateSet == g.rateSet && RowOdds(rates, g, wish, a[0]).Some?
         && AllOdds(rates, a[1..], g, wish).Some? && AllOdds(rates, b, g, wish).Some? {
        var o, x, y := RowOdds(rates, g, wish, a[0]).value, AllOdds(rates, a[1..], g, wish).value, AllOdds(rates, b, g, wish).value;
        assert o + (x + y) == o + x + y;
      }
    }
  }

  lemma {:induction false} OneRow(rates: seq<Rate>, row: Rate, g: Gacha, wish: Option<WishList>)
    ensures AllOdds(rates, [row], g, wish) == if row.rateSet == g.rateSet then RowOdds(rates, g, wish, row) else Some([])
  {
    hide RowOdds;
    assert [row][1..] == [];
    if RowOdds(rates, g, wish, row).Some? { assert RowOdds(rates, g, wish, row).value + [] == RowOdds(rates, g, wish, row).value; }
  }

  predicate Stands(rates: seq<Rate>, kind: int, id: int) {
    exists i | 0 <= i < |rates| :: exists j | 0 <= j < |rates[i].cards| :: rates[i].cards[j].kind == kind && rates[i].cards[j].id == id
  }

  /**
   * When a row can be dealt out: it has cards and a share that is not negative; a plain row has a unit for every card; a
   * pickup row has a valid wish list, a card somewhere for every pickup, and, with the pickups paid, a unit for every other
   * card, of which there is one.
   */
  lemma {:induction false} RowDealtExactly(rates: seq<Rate>, g: Gacha, wish: Option<WishList>, rate: Rate)
    requires Distinct(g.characters) && Distinct(g.memoria)
    ensures RowOdds(rates, g, wish, rate).Some? <==>
              && rate.basisPoints >= 0 && rate.cards != []
              && var units, kind := rate.basisPoints * 10, rate.cards[0].kind;
                 if g.selectCount == 0 || rate.cards[0].rarity != 3 then units >= |rate.cards|
                 else
                   wish.Some? && ValidWish(g, wish.value)
                   && var pickups := if kind == 4 then g.characters else g.memoria;
                   var wished := if kind == 4 then |wish.value.characters| else |wish.value.memoria|;
                   var others := Count(rate.cards, NotAmong(pickups));
                   (forall i | 0 <= i < |pickups| :: Stands(rates, kind, pickups[i]))
                   && others >= 1 && units - (250 * |pickups| + 750 * wished) >= others
  {
    hide Distribute, Total, ValidWish, Without, Pickups, Stands, Distinct;
    if rate.basisPoints >= 0 && rate.cards != [] {
      var units, kind := rate.basisPoints * 10, rate.cards[0].kind;
      if g.selectCount == 0 || rate.cards[0].rarity != 3 {
        DistributeIsFair(rate.cards, units);
      } else if wish.Some? && ValidWish(g, wish.value) {
        var w := wish.value;
        var pickups, selected := if kind == 4 then g.characters else g.memoria, if kind == 4 then w.characters else w.memoria;
        PickupsExist(rates, kind, pickups, selected);
        WithoutKeeps(rate.cards, pickups);
        WishesCost(rates, g, w, kind);
        if Pickups(rates, kind, pickups, selected).Some? {
          DistributeIsFair(Without(rate.cards, pickups), units - Total(Pickups(rates, kind, pickups, selected).value));
        }
      }
    }
  }

  lemma {:induction false} PickupsExist(rates: seq<Rate>, kind: int, pickups: seq<int>, selected: seq<int>)
    ensures Pickups(rates, kind, pickups, selected).Some? <==> forall i | 0 <= i < |pickups| :: Stands(rates, kind, pickups[i])
  {
    hide Stands;
    if pickups != [] {
      assert pickups == [pickups[0]] + pickups[1..];
      FoundExactly(rates, kind, pickups[0]);
      PickupsExist(rates, kind, pickups[1..], selected);
    }
  }

  lemma {:induction false} FoundExactly(rates: seq<Rate>, kind: int, id: int)
    ensures FindCard(rates, kind, id).Some? <==> Stands(rates, kind, id)
  {
    if rates != [] {
      var rest := rates[1..];
      assert forall i | 0 <= i < |rest| :: rest[i] == rates[i + 1];
      FoundIn(rates[0].cards, kind, id);
      FoundExactly(rest, kind, id);
      if Stands(rest, kind, id) {
        var i :| 0 <= i < |rest| && exists j | 0 <= j < |rest[i].cards| :: rest[i].cards[j].kind == kind && rest[i].cards[j].id == id;
        assert rates[i + 1] == rest[i];
      }
      if Stands(rates, kind, id) {
        var i :| 0 <= i < |rates| && exists j | 0 <= j < |rates[i].cards| :: rates[i].cards[j].kind == kind && rates[i].cards[j].id == id;
        if i > 0 { assert rest[i - 1] == rates[i]; }
      }
    }
  }

  lemma {:induction false} FoundIn(cards: seq<Card>, kind: int, id: int)
    ensures FindIn(cards, kind, id).Some? <==> exists j | 0 <= j < |cards| :: cards[j].kind == kind && cards[j].id == id
  {
    if cards != [] {
      var rest := cards[1..];
      assert forall i | 0 <= i < |rest| :: rest[i] == cards[i + 1];
      FoundIn(rest, kind, id);
      if j :| 0 <= j < |cards| && cards[j].kind == kind && cards[j].id == id {
        if j > 0 { assert rest[j - 1] == cards[j]; }
      }
    }
  }

  /** A valid wish list names pickups, each once, and as many as the gacha asks for: of each kind in a step-up gacha. */
  lemma {:induction false} WishCounts(g: Gacha, w: WishList)
    ensures ValidWish(g, w) <==>
              && w.gacha == g.id && w.skins == []
              && (if g.stepUp then |w.characters| == g.wishCounts.0 && |w.memoria| == g.wishCounts.1 && g.skinCount == 0
                  else |w.characters| + |w.memoria| == g.selectCount)
              && (forall id | id in w.characters :: id in g.characters) && (forall id :: multiset(w.characters)[id] <= 1)
              && (forall id | id in w.memoria :: id in g.memoria) && (forall id :: multiset(w.memoria)[id] <= 1)
  {
    hide Distinct;
    DistinctOnce(w.characters);
    DistinctOnce(w.memoria);
    AllAmong(w.characters, g.characters);
    AllAmong(w.memoria, g.memoria);
    assert g.wishCounts == (g.wishCounts.0, g.wishCounts.1);
  }

  lemma {:induction false} AllAmong(a: seq<int>, b: seq<int>)
    ensures (forall i | 0 <= i < |a| :: a[i] in b) <==> forall id | id in a :: id in b
  {
    if forall id | id in a :: id in b {
      forall i | 0 <= i < |a| ensures a[i] in b { assert a[i] in a; }
    }
  }

  lemma {:induction false} DistinctOnce(ids: seq<int>)
    ensures Distinct(ids) <==> forall id :: multiset(ids)[id] <= 1
  {
    if ids != [] {
      var rest := ids[1..];
      assert ids == [ids[0]] + rest;
      assert multiset(ids) == multiset{ids[0]} + multiset(rest);
      DistinctOnce(rest);
      if Distinct(ids) {
        assert ids[0] !in rest;
      } else if Distinct(rest) {
        assert ids[0] in rest;
        assert multiset(ids)[ids[0]] > 1;
      } else {
        var id :| multiset(rest)[id] > 1;
        assert multiset(ids)[id] > 1;
      }
    }
  }

  // ----- what a wish is worth ------------------------------------------------------------------

  function In(selected: seq<int>): int -> bool {
    (id: int) => id in selected
  }

  function Chosen(ids: seq<int>, selected: seq<int>): nat {
    Count(ids, In(selected))
  }

  lemma {:induction false} PickupTotal(rates: seq<Rate>, kind: int, pickups: seq<int>, selected: seq<int>)
    requires Pickups(rates, kind, pickups, selected).Some?
    ensures Total(Pickups(rates, kind, pickups, selected).value) == 250 * |pickups| + 750 * Chosen(pickups, selected)
  {
    if pickups != [] {
      CardFound(rates, kind, pickups[0]);
      PickupTotal(rates, kind, pickups[1..], selected);
    }
  }

  lemma {:induction false} RemoveAt(s: seq<int>, k: nat) returns (rest: seq<int>)
    requires Distinct(s) && k < |s|
    ensures rest == s[..k] + s[k + 1..] && |rest| == |s| - 1 && Distinct(rest) && s[k] !in rest
    ensures forall x | x != s[k] :: x in s <==> x in rest
  {
    rest := s[..k] + s[k + 1..];
    assert forall i | 0 <= i < |rest| :: rest[i] == if i < k then s[i] else s[i + 1];
    assert s == s[..k] + [s[k]] + s[k + 1..];
  }

  lemma {:induction false} ChosenAll(ids: seq<int>, selected: seq<int>)
    requires Distinct(ids) && Distinct(selected) && forall i | 0 <= i < |selected| :: selected[i] in ids
    ensures Chosen(ids, selected) == |selected|
    decreases |selected|
  {
    hide Distinct, Count;
    if selected == [] {
      CountBounded(ids, In([]));
    } else {
      var id, others := selected[0], selected[1..];
      var k :| 0 <= k < |ids| && ids[k] == id;
      var rest := RemoveAt(ids, k);
      DistinctTail(selected);
      forall i | 0 <= i < |others| ensures others[i] in rest {
        var x := others[i];
        assert x == selected[i + 1] && x in others;
      }
      ChosenAll(rest, others);
      CountSplit(ids, k, In(selected));
      forall i | 0 <= i < |rest| ensures In(selected)(rest[i]) == In(others)(rest[i]) {
        var x := rest[i];
        assert x in rest && x != id;
        assert selected == [id] + others;
      }
      CountPointwise(rest, In(selected), rest, In(others));
    }
  }

  lemma {:induction false} DistinctTail(ids: seq<int>)
    requires Distinct(ids) && ids != []
    ensures Distinct(ids[1..]) && ids[0] !in ids[1..]
  {
  }

  /** A valid wish list takes 250 units for every pickup and 750 more for every wish, whichever cards are wished for. */
  lemma {:induction false} WishesCost(rates: seq<Rate>, g: Gacha, w: WishList, kind: int)
    requires ValidWish(g, w) && Distinct(g.characters) && Distinct(g.memoria)
    ensures var pickups, selected := if kind == 4 then g.characters else g.memoria, if kind == 4 then w.characters else w.memoria;
            Pickups(rates, kind, pickups, selected).Some? ==>
              Total(Pickups(rates, kind, pickups, selected).value) == 250 * |pickups| + 750 * |selected|
  {
    hide Pickups, Total;
    var pickups, selected := if kind == 4 then g.characters else g.memoria, if kind == 4 then w.characters else w.memoria;
    if Pickups(rates, kind, pickups, selected).Some? {
      PickupTotal(rates, kind, pickups, selected);
      ChosenAll(pickups, selected);
    }
  }

  // ----- the loops -----------------------------------------------------------------------------

  /** weighted_gacha_cards */
  method WeightedGachaCards(rates: seq<Rate>, g: Gacha, wish: Option<WishList>) returns (r: Option<Weighted>)
    ensures r == GachaOdds(rates, g, wish)
  {
    hide Distribute, Total, ValidWish, Without, Pickups;
    var output: Weighted := [];
    var i := 0;
    ghost var all := AllOdds(rates, rates, g, wish);
    assert rates[i..] == rates && (all.Some? ==> output + all.value == all.value);
    while i < |rates|
      invariant 0 <= i <= |rates|
      invariant AllOdds(rates, rates, g, wish)
                == match AllOdds(rates, rates[i..], g, wish) case None => None case Some(rest) => Some(output + rest)
    {
      var rate := rates[i];
      ghost var before := output;
      assert rates[i..][1..] == rates[i + 1..];
      i := i + 1;
      if rate.rateSet != g.rateSet { continue; }
      if rate.basisPoints < 0 || rate.cards == [] { return None; }
      var units, first := rate.basisPoints * 10, rate.cards[0];
      if g.selectCount == 0 || first.rarity != 3 {
        var shares := Distribute(rate.cards, units);
        if shares.None? { return None; }
        output := output + shares.value;
        AppendOnce(rates, rates[i..], g, wish, before, shares.value);
        continue;
      }
      if wish.None? || !ValidWish(g, wish.value) { return None; }
      var pickups, selected := if first.kind == 4 then g.characters else g.memoria,
                               if first.kind == 4 then wish.value.characters else wish.value.memoria;
      var fixedUnits, fixed := PushPickups(rates, first.kind, pickups, selected);
      if fixed.None? { return None; }
      var normal := Distribute(Without(rate.cards, pickups), units - fixedUnits);
      if normal.None? { return None; }
      output := output + fixed.value + normal.value;
      assert output == before + (fixed.value + normal.value);
      AppendOnce(rates, rates[i..], g, wish, before, fixed.value + normal.value);
    }
    assert rates[i..] == [] && output + [] == output;
    if Total(output) != TOTAL_UNITS { return None; }
    r := Some(output);
  }

  lemma {:induction false} AppendOnce(rates: seq<Rate>, rest: seq<Rate>, g: Gacha, wish: Option<WishList>, before: Weighted, odds: Weighted)
    ensures match AllOdds(rates, rest, g, wish)
            case None => true
            case Some(more) => before + (odds + more) == before + odds + more
  {
    if AllOdds(rates, rest, g, wish).Some? {
      var more := AllOdds(rates, rest, g, wish).value;
      assert before + (odds + more) == before + odds + more;
    }
  }

  method PushPickups(rates: seq<Rate>, kind: int, pickups: seq<int>, selected: seq<int>) returns (units: nat, fixed: Option<Weighted>)
    ensures fixed == Pickups(rates, kind, pickups, selected)
    ensures fixed.Some? ==> units == Total(fixed.value)
  {
    var output: Weighted := [];
    units := 0;
    var i := 0;
    ghost var all := Pickups(rates, kind, pickups, selected);
    assert pickups[i..] == pickups && (all.Some? ==> output + all.value == all.value);
    while i < |pickups|
      invariant 0 <= i <= |pickups| && units == Total(output)
      invariant Pickups(rates, kind, pickups, selected)
                == match Pickups(rates, kind, pickups[i..], selected) case None => None case Some(rest) => Some(output + rest)
    {
      var card := FindCard(rates, kind, pickups[i]);
      assert pickups[i..][1..] == pickups[i + 1..];
      if card.None? { fixed := None; return; }
      var weight := PickupWeight(selected, card.value.id);
      ghost var rest := Pickups(rates, kind, pickups[i + 1..], selected);
      assert rest.Some? ==> output + ([(card.value, weight)] + rest.value) == output + [(card.value, weight)] + rest.value;
      TotalConcat(output, [(card.value, weight)]);
      units := units + weight;
      output := output + [(card.value, weight)];
      i := i + 1;
    }
    assert pickups[i..] == [] && output + [] == output;
    fixed := Some(output);
  }

  // ----- drawing -------------------------------------------------------------------------------

  function Sum(ws: seq<nat>): nat {
    if ws == [] then 0 else ws[0] + Sum(ws[1..])
  }

  /** The units before entry `i`. */
  function Offset(ws: seq<nat>, i: nat): nat
    requires i <= |ws|
  {
    Sum(ws[..i])
  }

  /** The entry that a draw falls on. */
  function Landing(ws: seq<nat>, draw: nat): Option<nat> {
    if ws == [] then None
    else if draw < ws[0] then Some(0)
    else match Landing(ws[1..], draw - ws[0])
      case None => None
      case Some(i) => Some(i + 1)
  }

  /** The loop of select_weighted_card and of weighted_index. */
  method Select(ws: seq<nat>, draw: nat) returns (r: Option<nat>)
    ensures r == Landing(ws, draw)
  {
    var left := draw;
    var i := 0;
    while i < |ws|
      invariant 0 <= i <= |ws|
      invariant Landing(ws, draw) == match Landing(ws[i..], left) case None => None case Some(k) => Some(k + i)
    {
      if left < ws[i] { return Some(i); }
      left := left - ws[i];
      assert ws[i..][1..] == ws[i + 1..];
      i := i + 1;
    }
    r := None;
  }

  /** Every draw below the total falls on the entry whose interval holds it, so no draw falls through. */
  lemma {:induction false} LandingExactly(ws: seq<nat>, draw: nat, i: nat)
    ensures draw < Sum(ws) <==> Landing(ws, draw).Some?
    ensures Landing(ws, draw) == Some(i) <==> i < |ws| && Offset(ws, i) <= draw < Offset(ws, i) + ws[i]
    decreases |ws|
  {
    if ws != [] {
      assert ws == [ws[0]] + ws[1..];
      if i > 0 {
        if i <= |ws| { assert ws[..i][1..] == ws[1..][..i - 1]; }
        if draw >= ws[0] { LandingExactly(ws[1..], draw - ws[0], i - 1); }
      } else if draw >= ws[0] {
        LandingExactly(ws[1..], draw - ws[0], 0);
      }
    }
  }

  /** How many numbers below `n` satisfy `p`. */
  function CountBelow(n: nat, p: int -> bool): nat {
    if n == 0 then 0 else CountBelow(n - 1, p) + (if p(n - 1) then 1 else 0)
  }

  lemma {:induction false} CountInterval(n: nat, lo: nat, hi: nat, p: int -> bool)
    requires lo <= hi && forall v: int | 0 <= v < n :: p(v) <==> lo <= v < hi
    ensures CountBelow(n, p) == Min(n, hi) - Min(n, lo)
  {
    if n > 0 { CountInterval(n - 1, lo, hi, p); }
  }

  function Hits(ws: seq<nat>, i: nat): int -> bool {
    v => v >= 0 && Landing(ws, v) == Some(i)
  }

  /** Entry `i` wins exactly as many of the draws as its weight. */
  lemma {:induction false} DrawsPartition(ws: seq<nat>, i: nat)
    requires i < |ws|
    ensures CountBelow(Sum(ws), Hits(ws, i)) == ws[i]
  {
    hide Landing;
    forall v: int | 0 <= v < Sum(ws) ensures Hits(ws, i)(v) <==> Offset(ws, i) <= v < Offset(ws, i) + ws[i] {
      LandingExactly(ws, v, i);
    }
    OffsetFits(ws, i);
    CountInterval(Sum(ws), Offset(ws, i), Offset(ws, i) + ws[i], Hits(ws, i));
  }

  lemma {:induction false} OffsetFits(ws: seq<nat>, i: nat)
    requires i < |ws|
    ensures Offset(ws, i) + ws[i] <= Sum(ws)
  {
    if i > 0 {
      OffsetFits(ws[1..], i - 1);
      assert ws[..i][1..] == ws[1..][..i - 1];
    }
  }

  // ----- the random source ---------------------------------------------------------------------

  /** random_below accepts the 32-bit numbers below the largest multiple of the limit and reduces them. */
  function Zone(limit: nat): nat
    requires limit > 0
  {
    U32 / limit * limit
  }

  function Reduced(limit: nat, p: int -> bool): int -> bool
    requires limit > 0
  {
    v => p(v % limit)
  }

  lemma {:induction false} CountBlock(k: nat, limit: nat, n: nat, p: int -> bool)
    requires limit > 0 && n <= limit
    ensures CountBelow(k * limit + n, Reduced(limit, p)) == CountBelow(k * limit, Reduced(limit, p)) + CountBelow(n, p)
    decreases n
  {
    if n > 0 {
      CountBlock(k, limit, n - 1, p);
      QuotientIs(k * limit + n - 1, limit, k, n - 1);
    }
  }

  lemma {:induction false} CountBlocks(k: nat, limit: nat, p: int -> bool)
    requires limit > 0
    ensures CountBelow(k * limit, Reduced(limit, p)) == k * CountBelow(limit, p)
  {
    hide CountBelow, Reduced;
    if k == 0 {
      CountNone(Reduced(limit, p));
    } else {
      CountBlocks(k - 1, limit, p);
      CountBlock(k - 1, limit, limit, p);
      OneMore(k, limit);
      OneMore(k, CountBelow(limit, p));
    }
  }

  lemma {:induction false} CountNone(p: int -> bool)
    ensures CountBelow(0, p) == 0
  {
  }

  lemma {:induction false} OneMore(k: int, n: int)
    ensures k * n == (k - 1) * n + n && (k == 0 ==> k * n == 0)
  {
  }

  /** Draws are fair: of the accepted random numbers, entry `i` wins its weight times a factor common to all entries. */
  lemma {:induction false} DrawsAreFair(ws: seq<nat>, i: nat)
    requires i < |ws| && 0 < Sum(ws) < U32
    ensures Zone(Sum(ws)) > 0 && Zone(Sum(ws)) == U32 / Sum(ws) * Sum(ws)
    ensures CountBelow(Zone(Sum(ws)), Reduced(Sum(ws), Hits(ws, i))) == U32 / Sum(ws) * ws[i]
  {
    var total := Sum(ws);
    CountBlocks(U32 / total, total, Hits(ws, i));
    DrawsPartition(ws, i);
    QuotientMonotone(total, U32, total);
    QuotientIs(total, total, 1, 0);
    MultiplesApart(U32 / total, 0, total);
  }
}
