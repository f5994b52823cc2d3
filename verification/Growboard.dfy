/** Growth boards (src/state/character/rules_and_reducers.rs): buying panels page by page or in bulk, and the reset. */
module Growboard {
  import opened Prelude
  import opened Wrapping

  // ----- rules and state -----------------------------------------------------------------------

  datatype Cost = Cost(kind: int, id: int, quantity: int)

  datatype Panel = Panel(panelType: int, status: Option<int>, value: int, costs: seq<Cost>, cole: int)

  type Page = seq<Panel>
  type Board = seq<Page>

  datatype Which = Normal | Ex | Neo

  /** Pages count from 1; `bits` holds the indexes of the panels bought on the current page. */
  datatype Progress = Progress(page: int, bits: set<int>)

  datatype Purse = Purse(cole: int, free: int, paid: int, items: map<int, int>, pieces: map<int, int>)

  /** A number that panels raise: a field of the character, or a rate shared by all characters of a role. */
  datatype Key = Own(panelType: int, stat: int) | Shared(role: int, stat: int)

  type Stats = map<Key, int>

  datatype Character = Character(role: int, exp: int, normal: Progress, ex: Progress, neo: Progress)

  datatype State = State(purse: Purse, stats: Stats, ch: Character)

  datatype Rules = Rules(normal: Board, ex: Board, neo: Option<Board>,
                         normalLimit: int, neoLimit: int, neoReady: bool,
                         levels: seq<(int, int)>, resetLevel: int, resetItem: int,
                         expItems: seq<(int, int)>, colePerExp: int)

  datatype Order = PageRelease | Bulk(target: int, bits: set<int>)

  datatype Refusal = InvalidRequest | UnsupportedReward

  // ----- paying and crediting ------------------------------------------------------------------

  function Held(m: map<int, int>, id: int): int {
    if id in m then m[id] else 0
  }

  function Pay(p: Purse, c: Cost): Result<Purse, Refusal> {
    if c.quantity < 0 then Err(InvalidRequest)
    else if c.quantity == 0 then Ok(p)
    else if c.kind == 3 then if p.cole < c.quantity then Err(InvalidRequest) else Ok(p.(cole := p.cole - c.quantity))
    else if c.kind == 8 then
      if c.id !in p.pieces || p.pieces[c.id] < c.quantity then Err(InvalidRequest)
      else Ok(p.(pieces := p.pieces[c.id := p.pieces[c.id] - c.quantity]))
    else if c.kind == 1 then
      if p.free + p.paid > I32_MAX || p.free + p.paid < c.quantity then Err(InvalidRequest)
      else
        var fromFree := Min(p.free, c.quantity);
        Ok(p.(free := p.free - fromFree, paid := p.paid - (c.quantity - fromFree)))
    else if c.kind == 2 then if p.paid < c.quantity then Err(InvalidRequest) else Ok(p.(paid := p.paid - c.quantity))
    else if c.kind == 5 then
      if c.id <= 0 || c.id !in p.items || p.items[c.id] < c.quantity then Err(InvalidRequest)
      else Ok(p.(items := p.items[c.id := p.items[c.id] - c.quantity]))
    else Err(InvalidRequest)
  }

  function PayAll(p: Purse, cs: seq<Cost>): Result<Purse, Refusal>
    decreases |cs|
  {
    if cs == [] then Ok(p)
    else match Pay(p, cs[0])
      case Err(e) => Err(e)
      case Ok(q) => PayAll(q, cs[1..])
  }

  function Credit(p: Purse, kind: int, id: int, quantity: int): Result<Purse, Refusal> {
    if kind == 1 then if p.free + quantity > I32_MAX then Err(InvalidRequest) else Ok(p.(free := p.free + quantity))
    else if kind == 3 then if p.cole + quantity > I32_MAX then Err(InvalidRequest) else Ok(p.(cole := p.cole + quantity))
    else if kind == 5 then
      if id <= 0 || !(0 <= Held(p.items, id) + quantity <= I32_MAX) then Err(InvalidRequest)
      else Ok(p.(items := p.items[id := Held(p.items, id) + quantity]))
    else Err(UnsupportedReward)
  }

  /** What is counted: gems are free and paid ones together. */
  datatype Res = Cole | Gem | Item(id: int) | Piece(id: int) | Nothing

  function ResOf(kind: int, id: int): Res {
    if kind == 3 then Cole else if kind == 1 || kind == 2 then Gem
    else if kind == 5 then Item(id) else if kind == 8 then Piece(id) else Nothing
  }

  function Amount(p: Purse, r: Res): int {
    match r
    case Cole => p.cole
    case Gem => p.free + p.paid
    case Item(id) => Held(p.items, id)
    case Piece(id) => Held(p.pieces, id)
    case Nothing => 0
  }

  lemma {:induction false} PayAmount(p: Purse, c: Cost, r: Res)
    requires Pay(p, c).Ok?
    ensures Amount(Pay(p, c).value, r) == Amount(p, r) - (if ResOf(c.kind, c.id) == r then c.quantity else 0)
    ensures c.quantity >= 0 && (c.quantity > 0 ==> c.kind in {1, 2, 3, 5, 8} && (c.kind == 5 ==> c.id > 0))
  {
  }

  /** The costs of a list that fall on one resource. */
  function CostsOn(cs: seq<Cost>, r: Res): int {
    if cs == [] then 0 else (if ResOf(cs[0].kind, cs[0].id) == r then cs[0].quantity else 0) + CostsOn(cs[1..], r)
  }

  lemma {:induction false} PayAllAmount(p: Purse, cs: seq<Cost>, r: Res)
    requires PayAll(p, cs).Ok?
    ensures Amount(PayAll(p, cs).value, r) == Amount(p, r) - CostsOn(cs, r)
    ensures forall i | 0 <= i < |cs| :: cs[i].quantity >= 0 && (cs[i].kind == 5 && cs[i].quantity > 0 ==> cs[i].id > 0)
    decreases |cs|
  {
    hide Pay, Amount, ResOf;
    if cs != [] {
      PayAmount(p, cs[0], r);
      PayAllAmount(Pay(p, cs[0]).value, cs[1..], r);
      assert cs == [cs[0]] + cs[1..];
    }
  }

  /** What a list of costs asks for in one kind. */
  function OfKind(cs: seq<Cost>, kind: int): int {
    if cs == [] then 0 else (if cs[0].kind == kind then cs[0].quantity else 0) + OfKind(cs[1..], kind)
  }

  /** A cost is paid exactly when it is nothing, or of a payable kind and at hand. */
  lemma {:induction false} PayExactly(p: Purse, c: Cost)
    ensures Pay(p, c).Ok? <==>
              || c.quantity == 0
              || (c.quantity > 0
                  && match c.kind
                     case 1 => c.quantity <= p.free + p.paid <= I32_MAX
                     case 2 => p.paid >= c.quantity
                     case 3 => p.cole >= c.quantity
                     case 5 => c.id > 0 && c.id in p.items && p.items[c.id] >= c.quantity
                     case 8 => c.id in p.pieces && p.pieces[c.id] >= c.quantity
                     case _ => false)
  {
  }

  /**
   * Whose gems go: free ones pay for kind 1 as long as there are any; bought ones pay for kind 2, and for what kind 1 costs
   * beyond the free ones, and for nothing else.
   */
  lemma {:induction false} FreeGemsFirst(p: Purse, cs: seq<Cost>)
    requires p.free >= 0 && p.paid >= 0 && PayAll(p, cs).Ok?
    ensures var q := PayAll(p, cs).value;
            && q.free == Max(p.free - OfKind(cs, 1), 0)
            && q.paid == p.paid - OfKind(cs, 2) - Max(OfKind(cs, 1) - p.free, 0)
            && q.free >= 0 && q.paid >= 0
            && OfKind(cs, 1) >= 0 && OfKind(cs, 2) >= 0
    decreases |cs|
  {
    hide PayAll;
    PayAllStep(p, cs);
    if cs != [] {
      FreeGemsFirst(Pay(p, cs[0]).value, cs[1..]);
    }
  }

  lemma {:induction false} PayAllStep(p: Purse, cs: seq<Cost>)
    ensures cs == [] ==> PayAll(p, cs) == Ok(p)
    ensures cs != [] && PayAll(p, cs).Ok? ==> Pay(p, cs[0]).Ok? && PayAll(Pay(p, cs[0]).value, cs[1..]) == PayAll(p, cs)
  {
    hide Pay;
  }

  // ----- panels --------------------------------------------------------------------------------

  /** Which number a panel moves; None where the source refuses the panel. */
  function KeyOf(role: int, p: Panel): Option<Key> {
    var named := p.status.Some? && 1 <= p.status.value <= 6;
    if p.panelType == 2 then if named then Some(Shared(role, p.status.value)) else None
    else if p.panelType == 1 then if named then Some(Own(1, p.status.value)) else None
    else if 3 <= p.panelType <= 10 then Some(Own(p.panelType, 0)) else None
  }

  function Get(s: Stats, k: Key): int {
    if k in s then s[k] else 0
  }

  /** panel_effect with sign 1 or -1 */
  function Effect(s: Stats, role: int, p: Panel, sign: int): Result<Stats, Refusal> {
    match KeyOf(role, p)
    case None => Err(InvalidRequest)
    case Some(k) =>
      var next := Get(s, k) + sign * p.value;
      if next < 0 || next > I32_MAX then Err(InvalidRequest) else Ok(s[k := next])
  }

  function BuyOne(st: State, p: Panel): Result<State, Refusal> {
    match PayAll(st.purse, p.costs)
    case Err(e) => Err(e)
    case Ok(a) =>
      match Pay(a, Cost(3, 1, p.cole))
      case Err(e) => Err(e)
      case Ok(b) =>
        match Effect(st.stats, st.ch.role, p, 1)
        case Err(e) => Err(e)
        case Ok(s) => Ok(st.(purse := b, stats := s))
  }

  function BuyAll(st: State, ps: seq<Panel>): Result<State, Refusal>
    decreases |ps|
  {
    if ps == [] then Ok(st)
    else match BuyOne(st, ps[0])
      case Err(e) => Err(e)
      case Ok(next) => BuyAll(next, ps[1..])
  }

  // ----- which panels --------------------------------------------------------------------------

  function All(page: Page): (r: set<int>)
    ensures forall i :: i in r <==> 0 <= i < |page|
    decreases |page|
  {
    if page == [] then {} else All(page[..|page| - 1]) + {|page| - 1}
  }

  /** The panels of a page at the given indexes, from index `i` on. */
  function Pick(page: Page, keep: set<int>, i: nat): seq<Panel>
    requires i <= |page|
    decreases |page| - i
  {
    if i == |page| then [] else (if i in keep then [page[i]] else []) + Pick(page, keep, i + 1)
  }

  /** Every panel of the first `n` pages. */
  function FullPages(board: Board, n: nat): seq<Panel>
    requires n <= |board|
  {
    if n == 0 then [] else FullPages(board, n - 1) + Pick(board[n - 1], All(board[n - 1]), 0)
  }

  predicate OnBoard(board: Board, pr: Progress) {
    1 <= pr.page <= |board| && forall i | i in pr.bits :: 0 <= i < |board[pr.page - 1]|
  }

  /** All panels on earlier pages, and those of the current page whose bit is set. */
  function Owned(board: Board, pr: Progress): seq<Panel>
    requires 1 <= pr.page <= |board|
  {
    FullPages(board, pr.page - 1) + Pick(board[pr.page - 1], pr.bits, 0)
  }

  /** The indexes to buy on page `n` on the way from `pr` to (target, bits). */
  function Wanted(board: Board, pr: Progress, target: int, bits: set<int>, n: int): set<int>
    requires 1 <= n <= |board|
  {
    (if n < target then All(board[n - 1]) else bits) - (if n == pr.page then pr.bits else {})
  }

  /** The panels to buy from page `n` to the target, in order. */
  function ToBuy(board: Board, pr: Progress, target: int, bits: set<int>, n: int): seq<Panel>
    requires 1 <= n && target <= |board|
    decreases target + 1 - n
  {
    if n > target then []
    else Pick(board[n - 1], Wanted(board, pr, target, bits, n), 0) + ToBuy(board, pr, target, bits, n + 1)
  }

  // ----- buying --------------------------------------------------------------------------------

  function BoardOf(rules: Rules, w: Which): Option<Board> {
    match w
    case Normal => Some(rules.normal)
    case Ex => Some(rules.ex)
    case Neo => rules.neo
  }

  function ProgressOf(ch: Character, w: Which): Progress {
    match w
    case Normal => ch.normal
    case Ex => ch.ex
    case Neo => ch.neo
  }

  function SetProgress(ch: Character, w: Which, pr: Progress): Character {
    match w
    case Normal => ch.(normal := pr)
    case Ex => ch.(ex := pr)
    case Neo => ch.(neo := pr)
  }

  predicate Complete(board: Board, pr: Progress) {
    pr.page == |board| && |board| > 0 && pr.bits == All(board[|board| - 1])
  }

  /** The last page that may be opened; None while the neo board is locked. */
  function Limit(rules: Rules, ch: Character, w: Which): Option<int> {
    match w
    case Normal => Some(Min(rules.normalLimit, |rules.normal|))
    case Ex => Some(|rules.ex|)
    case Neo =>
      if rules.neo.None? then None
      else if ch.neo.page == 1 && 0 !in ch.neo.bits
              && !(rules.neoReady && Complete(rules.normal, ch.normal) && Complete(rules.ex, ch.ex)) then None
      else Some(Min(rules.neoLimit, |rules.neo.value|))
  }

  /** The progress an order leads to; None where the order is refused before anything is paid. */
  function Destination(rules: Rules, ch: Character, w: Which, order: Order): (r: Option<Progress>)
    ensures r.Some? ==> BoardOf(rules, w).Some? && 1 <= ProgressOf(ch, w).page <= r.value.page
                        && OnBoard(BoardOf(rules, w).value, r.value.(bits := r.value.bits - ProgressOf(ch, w).bits))
  {
    var limit, pr := Limit(rules, ch, w), ProgressOf(ch, w);
    if limit.None? || pr.page <= 0 || pr.page > limit.value then None
    else
      var board := BoardOf(rules, w).value;
      if order.PageRelease? && pr.bits != All(board[pr.page - 1]) then None
      else
        var target, incoming := if order.PageRelease? then pr.page + 1 else order.target,
                                if order.PageRelease? then {} else order.bits;
        if target < pr.page || target > limit.value then None
        else if !(incoming <= All(board[target - 1])) then None
        else
          var bits := if target == pr.page then pr.bits + incoming else incoming;
          if target == pr.page && bits == pr.bits then None
          else if w.Ex? && bits != {} && 0 !in bits then None
          else Some(Progress(target, bits))
  }

  /** growboard: both release routes. */
  function Release(rules: Rules, st: State, w: Which, order: Order): Result<(State, nat), Refusal> {
    match Destination(rules, st.ch, w, order)
    case None => Err(InvalidRequest)
    case Some(to) =>
      var pr := ProgressOf(st.ch, w);
      var ps := ToBuy(BoardOf(rules, w).value, pr, to.page, to.bits, pr.page);
      match BuyAll(st, ps)
      case Err(e) => Err(e)
      case Ok(next) =>
        Ok((next.(ch := SetProgress(next.ch, w, to)), |ps|))
  }

  lemma {:induction false} BuyKeepsCharacter(st: State, ps: seq<Panel>)
    ensures BuyAll(st, ps).Ok? ==> BuyAll(st, ps).value.ch == st.ch
    decreases |ps|
  {
    if ps != [] && BuyOne(st, ps[0]).Ok? {
      BuyKeepsCharacter(BuyOne(st, ps[0]).value, ps[1..]);
    }
  }

  // ----- what buying adds ----------------------------------------------------------------------

  /** The sum of a measure over panels. */
  function Sum(ps: seq<Panel>, f: Panel -> int): int {
    if ps == [] then 0 else f(ps[0]) + Sum(ps[1..], f)
  }

  lemma {:induction false} SumConcat(a: seq<Panel>, b: seq<Panel>, f: Panel -> int)
    ensures Sum(a + b, f) == Sum(a, f) + Sum(b, f)
  {
    if a == [] { assert a + b == b; } else {
      assert (a + b)[1..] == a[1..] + b;
      SumConcat(a[1..], b, f);
    }
  }

  /** A panel's price in one resource. */
  function Price(r: Res): Panel -> int {
    (p: Panel) => CostsOn(p.costs, r) + (if r == Cole then p.cole else 0)
  }

  /** A panel's effect on one number. */
  function Gain(role: int, k: Key): Panel -> int {
    (p: Panel) => if KeyOf(role, p) == Some(k) then p.value else 0
  }

  lemma {:induction false} BuyAllAccounts(st: State, ps: seq<Panel>, r: Res, k: Key)
    requires BuyAll(st, ps).Ok?
    ensures var after := BuyAll(st, ps).value;
            && Amount(after.purse, r) == Amount(st.purse, r) - Sum(ps, Price(r))
            && Get(after.stats, k) == Get(st.stats, k) + Sum(ps, Gain(st.ch.role, k))
    ensures forall i | 0 <= i < |ps| :: Bought(ps[i], st.ch.role)
    decreases |ps|
  {
    hide Amount, PayAll, Pay, KeyOf;
    if ps != [] {
      var p := ps[0];
      PayAllAmount(st.purse, p.costs, r);
      PayAmount(PayAll(st.purse, p.costs).value, Cost(3, 1, p.cole), r);
      assert ResOf(3, 1) == Cole;
      BuyAllAccounts(BuyOne(st, p).value, ps[1..], r, k);
      assert Bought(p, st.ch.role);
      assert ps == [p] + ps[1..];
    }
  }

  /** What paying for a panel has shown about it. */
  predicate Bought(p: Panel, role: int) {
    && KeyOf(role, p).Some? && p.cole >= 0
    && forall i | 0 <= i < |p.costs| :: p.costs[i].quantity >= 0 && (p.costs[i].kind == 5 && p.costs[i].quantity > 0 ==> p.costs[i].id > 0)
  }

  lemma {:induction false} PickSplit(page: Page, held: set<int>, upto: set<int>, i: nat, f: Panel -> int)
    requires i <= |page| && held <= upto
    ensures Sum(Pick(page, upto, i), f) == Sum(Pick(page, held, i), f) + Sum(Pick(page, upto - held, i), f)
    decreases |page| - i
  {
    if i < |page| {
      PickSplit(page, held, upto, i + 1, f);
      SumConcat(if i in upto then [page[i]] else [], Pick(page, upto, i + 1), f);
      SumConcat(if i in held then [page[i]] else [], Pick(page, held, i + 1), f);
      SumConcat(if i in upto - held then [page[i]] else [], Pick(page, upto - held, i + 1), f);
    }
  }

  /** From page `n` beyond the current one, what is bought is what the pages hold. */
  lemma {:induction false} LaterPages(board: Board, pr: Progress, target: int, bits: set<int>, n: int, f: Panel -> int)
    requires 1 <= pr.page < n <= target <= |board|
    ensures Sum(FullPages(board, n - 1), f) + Sum(ToBuy(board, pr, target, bits, n), f)
            == Sum(Owned(board, Progress(target, bits)), f)
    decreases target - n
  {
    hide Pick, All, Sum;
    assert Wanted(board, pr, target, bits, n) == if n < target then All(board[n - 1]) else bits;
    var here := Pick(board[n - 1], Wanted(board, pr, target, bits, n), 0);
    SumConcat(here, ToBuy(board, pr, target, bits, n + 1), f);
    SumConcat(FullPages(board, n - 1), here, f);
    if n < target {
      LaterPages(board, pr, target, bits, n + 1, f);
    } else {
      assert here + [] == here;
    }
  }

  /**
   * The ownership invariant. Whatever is summed over the panels, an order adds to the owned ones exactly the panels it
   * buys: earlier pages stay wholly owned, and the current page is owned by its bits.
   */
  lemma {:induction false} OrderAddsPanels(board: Board, pr: Progress, target: int, bits: set<int>, f: Panel -> int)
    requires OnBoard(board, pr) && pr.page <= target <= |board|
    requires target == pr.page ==> pr.bits <= bits
    ensures Sum(Owned(board, Progress(target, bits)), f)
            == Sum(Owned(board, pr), f) + Sum(ToBuy(board, pr, target, bits, pr.page), f)
  {
    hide Pick, Sum, All;
    var n := pr.page;
    var page := board[n - 1];
    var upto := if n < target then All(page) else bits;
    assert pr.bits <= upto;
    var here := Pick(page, upto - pr.bits, 0);
    assert Wanted(board, pr, target, bits, n) == upto - pr.bits;
    PickSplit(page, pr.bits, upto, 0, f);
    SumConcat(here, ToBuy(board, pr, target, bits, n + 1), f);
    SumConcat(FullPages(board, n - 1), Pick(page, pr.bits, 0), f);
    SumConcat(FullPages(board, n - 1), Pick(page, upto, 0), f);
    if n < target {
      LaterPages(board, pr, target, bits, n + 1, f);
    } else {
      assert here + [] == here;
      assert ToBuy(board, pr, target, bits, n) == here;
    }
  }

  // ----- the reset -----------------------------------------------------------------------------

  type Refund = seq<((int, int), int)>

  predicate KeyBefore(a: (int, int), b: (int, int)) {
    a.0 < b.0 || (a.0 == b.0 && a.1 < b.1)
  }

  /** `*entry.or_default() += quantity` in a map ordered by key, as 32-bit addition without overflow checks does it. */
  function AddWrapping(rs: Refund, key: (int, int), quantity: int): Refund
    decreases |rs|
  {
    if rs == [] || KeyBefore(key, rs[0].0) then [(key, Wrap32(quantity))] + rs
    else if rs[0].0 == key then [(key, Wrap32(rs[0].1 + quantity))] + rs[1..]
    else [rs[0]] + AddWrapping(rs[1..], key, quantity)
  }

  function CostsWrapping(rs: Refund, cs: seq<Cost>): Refund
    decreases |cs|
  {
    if cs == [] then rs else CostsWrapping(AddWrapping(rs, (cs[0].kind, cs[0].id), cs[0].quantity), cs[1..])
  }

  function AllWrapping(rs: Refund, ps: seq<Panel>): Refund
    decreases |ps|
  {
    if ps == [] then rs else AllWrapping(CostsWrapping(AddWrapping(rs, (3, 1), ps[0].cole), ps[0].costs), ps[1..])
  }

  /** The same sums without bounds: what is due. */
  function AddRefund(rs: Refund, key: (int, int), quantity: int): Refund
    decreases |rs|
  {
    if rs == [] || KeyBefore(key, rs[0].0) then [(key, quantity)] + rs
    else if rs[0].0 == key then [(key, rs[0].1 + quantity)] + rs[1..]
    else [rs[0]] + AddRefund(rs[1..], key, quantity)
  }

  function RefundCosts(rs: Refund, cs: seq<Cost>): Refund
    decreases |cs|
  {
    if cs == [] then rs else RefundCosts(AddRefund(rs, (cs[0].kind, cs[0].id), cs[0].quantity), cs[1..])
  }

  function RefundAll(rs: Refund, ps: seq<Panel>): Refund
    decreases |ps|
  {
    if ps == [] then rs else RefundAll(RefundCosts(AddRefund(rs, (3, 1), ps[0].cole), ps[0].costs), ps[1..])
  }

  function UndoAll(s: Stats, role: int, ps: seq<Panel>): Result<Stats, Refusal>
    decreases |ps|
  {
    if ps == [] then Ok(s)
    else match Effect(s, role, ps[0], -1)
      case Err(e) => Err(e)
      case Ok(t) => UndoAll(t, role, ps[1..])
  }

  /** Entries without a positive quantity are left out. */
  function CreditAll(p: Purse, rs: Refund): Result<Purse, Refusal>
    decreases |rs|
  {
    if rs == [] then Ok(p)
    else if rs[0].1 <= 0 then CreditAll(p, rs[1..])
    else match Credit(p, rs[0].0.0, rs[0].0.1, rs[0].1)
      case Err(e) => Err(e)
      case Ok(q) => CreditAll(q, rs[1..])
  }

  function Level(levels: seq<(int, int)>, exp: int): (r: Option<int>)
    decreases |levels|
  {
    if levels == [] then None
    else
      var rest := Level(levels[1..], exp);
      if levels[0].0 > exp then rest
      else if rest.None? || rest.value <= levels[0].1 then Some(levels[0].1) else rest
  }

  /** Insertion of an (id, value) row into rows of descending value, before the first row of smaller or equal value. */
  function InsertItem(row: (int, int), rows: seq<(int, int)>): (r: seq<(int, int)>)
    ensures multiset(r) == multiset{row} + multiset(rows)
    decreases |rows|
  {
    if rows == [] || rows[0].1 <= row.1 then [row] + rows
    else
      assert rows == [rows[0]] + rows[1..];
      [rows[0]] + InsertItem(row, rows[1..])
  }

  function Descending(rows: seq<(int, int)>): (r: seq<(int, int)>)
    ensures multiset(r) == multiset(rows)
    decreases |rows|
  {
    if rows == [] then []
    else
      assert rows == [rows[0]] + rows[1..];
      InsertItem(rows[0], Descending(rows[1..]))
  }

  /** Experience paid back in items, largest first; a later row of the same item replaces an earlier one. */
  function ExpItems(rs: Refund, exp: nat, rows: seq<(int, int)>): (Refund, nat)
    requires forall i | 0 <= i < |rows| :: rows[i].1 > 0
    decreases |rows|
  {
    if rows == [] then (rs, exp)
    else
      var quantity := exp / rows[0].1;
      ExpItems(if quantity > 0 then SetRefund(rs, (5, rows[0].0), quantity) else rs, exp % rows[0].1, rows[1..])
  }

  function SetRefund(rs: Refund, key: (int, int), quantity: int): Refund
    decreases |rs|
  {
    if rs == [] || KeyBefore(key, rs[0].0) then [(key, quantity)] + rs
    else if rs[0].0 == key then [(key, quantity)] + rs[1..]
    else [rs[0]] + SetRefund(rs[1..], key, quantity)
  }

  predicate GoodRules(rules: Rules) {
    && rules.colePerExp >= 0
    && (forall i | 0 <= i < |rules.expItems| :: rules.expItems[i].0 > 0 && rules.expItems[i].1 > 0)
  }

  /** The coins that a reset pays back for the experience. */
  function ExpCole(rules: Rules, exp: nat): int
    requires GoodRules(rules)
  {
    var rows := Descending(rules.expItems);
    RowsStay(rules.expItems, rows);
    (exp - ExpItems([], exp, rows).1) * rules.colePerExp / 100
  }

  /** What a reset pays back for the experience alone. */
  function ExpRefund(rules: Rules, exp: nat): Refund
    requires GoodRules(rules)
  {
    var rows := Descending(rules.expItems);
    RowsStay(rules.expItems, rows);
    SetRefund(ExpItems([], exp, rows).0, (3, 1), ExpCole(rules, exp))
  }

  lemma {:induction false} RowsStay(a: seq<(int, int)>, b: seq<(int, int)>)
    requires multiset(a) == multiset(b) && forall i | 0 <= i < |a| :: a[i].0 > 0 && a[i].1 > 0
    ensures forall i | 0 <= i < |b| :: b[i].0 > 0 && b[i].1 > 0
  {
    forall i | 0 <= i < |b| ensures b[i].0 > 0 && b[i].1 > 0 {
      assert b[i] in multiset(a);
    }
  }

  predicate Pristine(pr: Progress) {
    pr.page == 1 && pr.bits == {}
  }

  predicate NothingToReset(ch: Character, onlyLevel: bool) {
    ch.exp == 0 && (onlyLevel || (Pristine(ch.normal) && Pristine(ch.ex)))
  }

  function Fee(rules: Rules, ch: Character): Cost {
    var level := match Level(rules.levels, ch.exp) case Some(l) => l case None => 1;
    Cost(5, rules.resetItem, if level >= rules.resetLevel then 1 else 0)
  }

  predicate Playable(rules: Rules, ch: Character) {
    0 <= ch.exp <= I32_MAX && OnBoard(rules.normal, ch.normal) && OnBoard(rules.ex, ch.ex)
  }

  function OwnedBoth(rules: Rules, ch: Character): seq<Panel>
    requires Playable(rules, ch)
  {
    Owned(rules.normal, ch.normal) + Owned(rules.ex, ch.ex)
  }

  /** reset: the boards are walked from the first page, the normal one first. */
  function Reset(rules: Rules, st: State, onlyLevel: bool): Result<State, Refusal>
    requires GoodRules(rules) && Playable(rules, st.ch)
  {
    if NothingToReset(st.ch, onlyLevel) then Err(InvalidRequest)
    else match Pay(st.purse, Fee(rules, st.ch))
      case Err(e) => Err(e)
      case Ok(paid) =>
        var ps := if onlyLevel then [] else OwnedBoth(rules, st.ch);
        if ExpCole(rules, st.ch.exp) > I32_MAX then Err(InvalidRequest)
        else match UndoAll(st.stats, st.ch.role, ps)
          case Err(e) => Err(e)
          case Ok(stats) =>
            match CreditAll(paid, AllWrapping(ExpRefund(rules, st.ch.exp), ps))
            case Err(e) => Err(e)
            case Ok(purse) =>
              var ch := if onlyLevel then st.ch else st.ch.(normal := Progress(1, {}), ex := Progress(1, {}));
              Ok(State(purse, stats, ch.(exp := 0)))
  }

  // ----- what the reset gives back -------------------------------------------------------------

  /** The refund that falls on one resource. */
  function Total(rs: Refund, r: Res): int
    decreases |rs|
  {
    if rs == [] then 0 else (if ResOf(rs[0].0.0, rs[0].0.1) == r then rs[0].1 else 0) + Total(rs[1..], r)
  }

  lemma {:induction false} AddRefundTotal(rs: Refund, key: (int, int), quantity: int, r: Res)
    ensures Total(AddRefund(rs, key, quantity), r) == Total(rs, r) + (if ResOf(key.0, key.1) == r then quantity else 0)
    decreases |rs|
  {
    hide ResOf;
    if rs == [] || KeyBefore(key, rs[0].0) {
      assert ([(key, quantity)] + rs)[1..] == rs;
    } else if rs[0].0 == key {
    } else {
      AddRefundTotal(rs[1..], key, quantity, r);
      assert AddRefund(rs, key, quantity)[1..] == AddRefund(rs[1..], key, quantity);
    }
  }

  lemma {:induction false} RefundCostsTotal(rs: Refund, cs: seq<Cost>, r: Res)
    ensures Total(RefundCosts(rs, cs), r) == Total(rs, r) + CostsOn(cs, r)
    decreases |cs|
  {
    hide ResOf, Total, AddRefund;
    if cs != [] {
      AddRefundTotal(rs, (cs[0].kind, cs[0].id), cs[0].quantity, r);
      RefundCostsTotal(AddRefund(rs, (cs[0].kind, cs[0].id), cs[0].quantity), cs[1..], r);
    }
  }

  lemma {:induction false} RefundAllTotal(rs: Refund, ps: seq<Panel>, r: Res)
    ensures Total(RefundAll(rs, ps), r) == Total(rs, r) + Sum(ps, Price(r))
    decreases |ps|
  {
    hide Total, AddRefund, RefundCosts, CostsOn;
    if ps != [] {
      AddRefundTotal(rs, (3, 1), ps[0].cole, r);
      assert ResOf(3, 1) == Cole;
      RefundCostsTotal(AddRefund(rs, (3, 1), ps[0].cole), ps[0].costs, r);
      RefundAllTotal(RefundCosts(AddRefund(rs, (3, 1), ps[0].cole), ps[0].costs), ps[1..], r);
    }
  }

  predicate NonNegativeRefund(rs: Refund) {
    forall i | 0 <= i < |rs| :: rs[i].1 >= 0
  }

  lemma {:induction false} CreditAllAmount(p: Purse, rs: Refund, r: Res)
    requires CreditAll(p, rs).Ok? && NonNegativeRefund(rs)
    ensures Amount(CreditAll(p, rs).value, r) == Amount(p, r) + Total(rs, r)
    decreases |rs|
  {
    if rs != [] {
      if rs[0].1 <= 0 { CreditAllAmount(p, rs[1..], r); }
      else { CreditAllAmount(Credit(p, rs[0].0.0, rs[0].0.1, rs[0].1).value, rs[1..], r); }
    }
  }

  lemma {:induction false} UndoAllAccounts(s: Stats, role: int, ps: seq<Panel>, k: Key)
    requires UndoAll(s, role, ps).Ok?
    ensures Get(UndoAll(s, role, ps).value, k) == Get(s, k) - Sum(ps, Gain(role, k))
    decreases |ps|
  {
    hide KeyOf;
    if ps != [] { UndoAllAccounts(Effect(s, role, ps[0], -1).value, role, ps[1..], k); }
  }

  // ----- when the reset is granted -------------------------------------------------------------

  /** What is stored fits 32 bits. */
  predicate SoundPurse(p: Purse) {
    p.cole <= I32_MAX && p.free <= I32_MAX && forall id | id in p.items :: 0 <= p.items[id] <= I32_MAX
  }

  ghost predicate SoundStats(s: Stats) {
    forall k: Key :: Get(s, k) <= I32_MAX
  }

  predicate Creditable(key: (int, int)) {
    key.0 == 1 || key.0 == 3 || (key.0 == 5 && key.1 > 0)
  }

  predicate CreditsOk(rs: Refund) {
    forall i | 0 <= i < |rs| :: rs[i].1 > 0 ==> Creditable(rs[i].0)
  }

  /** The credited totals fit 32 bits beside what is there. */
  ghost predicate Fits(p: Purse, rs: Refund) {
    && p.cole + Total(rs, Cole) <= I32_MAX && p.free + Total(rs, Gem) <= I32_MAX
    && forall id :: Held(p.items, id) + Total(rs, Item(id)) <= I32_MAX
  }

  lemma {:induction false} TotalNonNegative(rs: Refund, r: Res)
    requires NonNegativeRefund(rs)
    ensures Total(rs, r) >= 0
    decreases |rs|
  {
    hide ResOf;
    if rs != [] { assert rs == [rs[0]] + rs[1..]; TotalNonNegative(rs[1..], r); }
  }

  /** A refund is granted exactly when each positive entry is of a kind that rewards support and the totals fit. */
  lemma {:induction false} CreditAllExactly(p: Purse, rs: Refund)
    requires SoundPurse(p) && NonNegativeRefund(rs)
    ensures CreditAll(p, rs).Ok? <==> CreditsOk(rs) && Fits(p, rs)
    decreases |rs|
  {
    hide Total;
    if rs == [] {
      EmptyRefund(p);
    } else {
      assert rs == [rs[0]] + rs[1..];
      CreditsOkCons(rs[0], rs[1..]);
      TotalHead(rs);
      forall r: Res ensures Total(rs[1..], r) >= 0 { TotalNonNegative(rs[1..], r); }
      if rs[0].1 <= 0 {
        CreditAllExactly(p, rs[1..]);
        assert Fits(p, rs) <==> Fits(p, rs[1..]);
      } else if Creditable(rs[0].0) {
        CreditOne(p, rs);
        if Credit(p, rs[0].0.0, rs[0].0.1, rs[0].1).Ok? {
          CreditAllExactly(Credit(p, rs[0].0.0, rs[0].0.1, rs[0].1).value, rs[1..]);
        }
      }
    }
  }

  /** A reward adds to free gems, coins or one item, and touches nothing else; bought gems are never handed out. */
  lemma {:induction false} CreditAdds(p: Purse, kind: int, id: int, quantity: int)
    requires Credit(p, kind, id, quantity).Ok?
    ensures var q := Credit(p, kind, id, quantity).value;
            && q.paid == p.paid && q.pieces == p.pieces
            && q.free == p.free + (if kind == 1 then quantity else 0)
            && q.cole == p.cole + (if kind == 3 then quantity else 0)
            && q.items == if kind != 5 then p.items
                          else if id in p.items then p.items[id := p.items[id] + quantity] else p.items[id := quantity]
  {
  }

  lemma {:induction false} EmptyRefund(p: Purse)
    requires SoundPurse(p)
    ensures CreditAll(p, []).Ok? && CreditsOk([]) && Fits(p, [])
  {
  }

  lemma {:induction false} TotalHead(rs: Refund)
    requires rs != []
    ensures forall r :: Total(rs, r) == (if ResOf(rs[0].0.0, rs[0].0.1) == r then rs[0].1 else 0) + Total(rs[1..], r)
  {
    hide ResOf;
  }

  lemma {:induction false} CreditOne(p: Purse, rs: Refund)
    requires SoundPurse(p) && rs != [] && rs[0].1 > 0 && Creditable(rs[0].0) && forall r: Res :: Total(rs[1..], r) >= 0
    requires forall r :: Total(rs, r) == (if ResOf(rs[0].0.0, rs[0].0.1) == r then rs[0].1 else 0) + Total(rs[1..], r)
    ensures var c := Credit(p, rs[0].0.0, rs[0].0.1, rs[0].1);
            && (c.Err? ==> !Fits(p, rs))
            && (c.Ok? ==> SoundPurse(c.value) && (Fits(c.value, rs[1..]) <==> Fits(p, rs)))
  {
    hide Total;
    var (kind, id) := rs[0].0;
    var c := Credit(p, kind, id, rs[0].1);
    if c.Ok? {
      var q := c.value;
      forall i ensures Held(q.items, i) + Total(rs[1..], Item(i)) == Held(p.items, i) + Total(rs, Item(i)) { }
      assert q.cole + Total(rs[1..], Cole) == p.cole + Total(rs, Cole) && q.free + Total(rs[1..], Gem) == p.free + Total(rs, Gem);
    } else if kind == 5 {
      assert Held(p.items, id) + Total(rs, Item(id)) > I32_MAX;
    }
  }

  lemma {:induction false} AddRefundOk(rs: Refund, key: (int, int), quantity: int)
    requires NonNegativeRefund(rs) && quantity >= 0
    ensures NonNegativeRefund(AddRefund(rs, key, quantity))
    ensures CreditsOk(AddRefund(rs, key, quantity)) <==> CreditsOk(rs) && (quantity > 0 ==> Creditable(key))
    decreases |rs|
  {
    hide Creditable;
    if rs == [] || KeyBefore(key, rs[0].0) {
      CreditsOkCons((key, quantity), rs);
    } else {
      assert rs == [rs[0]] + rs[1..];
      CreditsOkCons(rs[0], rs[1..]);
      if rs[0].0 == key {
        CreditsOkCons((key, rs[0].1 + quantity), rs[1..]);
      } else {
        AddRefundOk(rs[1..], key, quantity);
        CreditsOkCons(rs[0], AddRefund(rs[1..], key, quantity));
      }
    }
  }

  lemma {:induction false} CreditsOkCons(entry: ((int, int), int), rs: Refund)
    ensures CreditsOk([entry] + rs) <==> (entry.1 > 0 ==> Creditable(entry.0)) && CreditsOk(rs)
  {
    hide Creditable;
    var all := [entry] + rs;
    assert all[0] == entry;
    assert forall i | 0 <= i < |rs| :: all[i + 1] == rs[i];
  }

  predicate RefundableCosts(cs: seq<Cost>) {
    forall i | 0 <= i < |cs| :: cs[i].quantity > 0 ==> Creditable((cs[i].kind, cs[i].id))
  }

  lemma {:induction false} RefundCostsOk(rs: Refund, cs: seq<Cost>)
    requires NonNegativeRefund(rs) && forall i | 0 <= i < |cs| :: cs[i].quantity >= 0
    ensures NonNegativeRefund(RefundCosts(rs, cs))
    ensures CreditsOk(RefundCosts(rs, cs)) <==> CreditsOk(rs) && RefundableCosts(cs)
    decreases |cs|
  {
    hide Creditable, AddRefund, NonNegativeRefund, CreditsOk;
    if cs != [] {
      assert cs == [cs[0]] + cs[1..];
      AddRefundOk(rs, (cs[0].kind, cs[0].id), cs[0].quantity);
      RefundCostsOk(AddRefund(rs, (cs[0].kind, cs[0].id), cs[0].quantity), cs[1..]);
    }
  }

  /** A bought panel can be given back when none of its prices is in paid gems or character pieces. */
  predicate Returnable(p: Panel) {
    forall i | 0 <= i < |p.costs| :: p.costs[i].quantity > 0 ==> p.costs[i].kind in {1, 3, 5}
  }

  lemma {:induction false} RefundAllOk(rs: Refund, ps: seq<Panel>, role: int)
    requires NonNegativeRefund(rs) && forall i | 0 <= i < |ps| :: Bought(ps[i], role)
    ensures NonNegativeRefund(RefundAll(rs, ps))
    ensures CreditsOk(RefundAll(rs, ps)) <==> CreditsOk(rs) && forall i | 0 <= i < |ps| :: Returnable(ps[i])
    decreases |ps|
  {
    hide AddRefund, NonNegativeRefund, CreditsOk, RefundCosts, KeyOf;
    if ps != [] {
      var p := ps[0];
      assert ps == [p] + ps[1..];
      AddRefundOk(rs, (3, 1), p.cole);
      RefundCostsOk(AddRefund(rs, (3, 1), p.cole), p.costs);
      RefundAllOk(RefundCosts(AddRefund(rs, (3, 1), p.cole), p.costs), ps[1..], role);
      assert Bought(p, role);
      assert RefundableCosts(p.costs) <==> Returnable(p) by {
        forall i | 0 <= i < |p.costs| && p.costs[i].quantity > 0
          ensures Creditable((p.costs[i].kind, p.costs[i].id)) <==> p.costs[i].kind in {1, 3, 5} {
        }
      }
    }
  }

  lemma {:induction false} SetRefundOk(rs: Refund, key: (int, int), quantity: int)
    requires NonNegativeRefund(rs) && CreditsOk(rs) && quantity >= 0 && Creditable(key)
    ensures NonNegativeRefund(SetRefund(rs, key, quantity)) && CreditsOk(SetRefund(rs, key, quantity))
    decreases |rs|
  {
    hide Creditable;
    if rs != [] && !KeyBefore(key, rs[0].0) && rs[0].0 != key { SetRefundOk(rs[1..], key, quantity); }
  }

  lemma {:induction false} ExpItemsOk(rs: Refund, exp: nat, rows: seq<(int, int)>)
    requires NonNegativeRefund(rs) && CreditsOk(rs)
    requires forall i | 0 <= i < |rows| :: rows[i].0 > 0 && rows[i].1 > 0
    ensures var r := ExpItems(rs, exp, rows); NonNegativeRefund(r.0) && CreditsOk(r.0) && r.1 <= exp
    decreases |rows|
  {
    hide NonNegativeRefund, CreditsOk, SetRefund;
    if rows != [] {
      var quantity := exp / rows[0].1;
      if quantity > 0 { SetRefundOk(rs, (5, rows[0].0), quantity); }
      ExpItemsOk(if quantity > 0 then SetRefund(rs, (5, rows[0].0), quantity) else rs, exp % rows[0].1, rows[1..]);
      assert exp % rows[0].1 <= exp;
    }
  }

  lemma {:induction false} ExpRefundOk(rules: Rules, exp: nat)
    requires GoodRules(rules)
    ensures NonNegativeRefund(ExpRefund(rules, exp)) && CreditsOk(ExpRefund(rules, exp))
  {
    hide SetRefund, ExpItems, Descending;
    var rows := Descending(rules.expItems);
    RowsStay(rules.expItems, rows);
    ExpItemsOk([], exp, rows);
    var (rs, rest) := ExpItems([], exp, rows);
    assert (exp - rest) * rules.colePerExp >= 0;
    SetRefundOk(rs, (3, 1), ExpCole(rules, exp));
  }

  /** Undoing panel after panel, every number stays non-negative and within 32 bits. */
  predicate Undoable(s: Stats, role: int, ps: seq<Panel>) {
    forall j | 0 <= j < |ps| :: KeyOf(role, ps[j]).Some? && 0 <= Left(s, role, ps, j, KeyOf(role, ps[j]).value) <= I32_MAX
  }

  /** What is left of a number when the first `j + 1` panels are undone. */
  function Left(s: Stats, role: int, ps: seq<Panel>, j: nat, k: Key): int
    requires j < |ps|
  {
    Get(s, k) - Sum(ps[..j + 1], Gain(role, k))
  }

  lemma {:induction false} UndoExactly(s: Stats, role: int, ps: seq<Panel>)
    ensures UndoAll(s, role, ps).Ok? <==> Undoable(s, role, ps)
    decreases |ps|
  {
    hide KeyOf;
    if ps == [] {
      assert Undoable(s, role, ps);
    } else {
      var p := ps[0];
      assert ps[..1] == [p];
      if Undoable(s, role, ps) {
        assert KeyOf(role, ps[0]).Some? && 0 <= Left(s, role, ps, 0, KeyOf(role, ps[0]).value) <= I32_MAX;
      }
      if KeyOf(role, p).Some? {
        assert Sum(ps[..1], Gain(role, KeyOf(role, p).value)) == p.value + Sum([], Gain(role, KeyOf(role, p).value));
        if Effect(s, role, p, -1).Ok? {
          var t := Effect(s, role, p, -1).value;
          UndoExactly(t, role, ps[1..]);
          UndoStep(s, t, role, ps);
        } else {
          assert !Undoable(s, role, ps);
        }
      } else {
        assert !Undoable(s, role, ps);
      }
    }
  }

  lemma {:induction false} UndoStep(s: Stats, t: Stats, role: int, ps: seq<Panel>)
    requires ps != [] && Effect(s, role, ps[0], -1) == Ok(t)
    ensures Undoable(s, role, ps) <==> Undoable(t, role, ps[1..])
  {
    hide KeyOf;
    var rest := ps[1..];
    assert forall j | 0 <= j < |rest| :: rest[j] == ps[j + 1];
    forall j | 0 <= j < |rest| && KeyOf(role, rest[j]).Some?
      ensures Left(s, role, ps, j + 1, KeyOf(role, rest[j]).value) == Left(t, role, rest, j, KeyOf(role, rest[j]).value) {
      assert ps[..j + 2][1..] == rest[..j + 1];
    }
    assert ps[..1][1..] == [];
    hide Left;
    if Undoable(s, role, ps) {
      forall j | 0 <= j < |rest|
        ensures KeyOf(role, rest[j]).Some? && 0 <= Left(t, role, rest, j, KeyOf(role, rest[j]).value) <= I32_MAX {
        assert KeyOf(role, ps[j + 1]).Some? && 0 <= Left(s, role, ps, j + 1, KeyOf(role, ps[j + 1]).value) <= I32_MAX;
      }
    }
    if Undoable(t, role, rest) {
      assert 0 <= Left(s, role, ps, 0, KeyOf(role, ps[0]).value) <= I32_MAX by { UndoFirst(s, t, role, ps); }
      forall j | 0 <= j < |ps|
        ensures KeyOf(role, ps[j]).Some? && 0 <= Left(s, role, ps, j, KeyOf(role, ps[j]).value) <= I32_MAX {
        if j > 0 {
          assert KeyOf(role, rest[j - 1]).Some? && 0 <= Left(t, role, rest, j - 1, KeyOf(role, rest[j - 1]).value) <= I32_MAX;
        }
      }
    }
  }

  lemma {:induction false} UndoFirst(s: Stats, t: Stats, role: int, ps: seq<Panel>)
    requires ps != [] && Effect(s, role, ps[0], -1) == Ok(t)
    ensures KeyOf(role, ps[0]).Some? && 0 <= Left(s, role, ps, 0, KeyOf(role, ps[0]).value) <= I32_MAX
  {
    hide KeyOf;
    var k := KeyOf(role, ps[0]).value;
    assert ps[..0 + 1] == [ps[0]];
    assert Sum([ps[0]], Gain(role, k)) == Gain(role, k)(ps[0]) + Sum([], Gain(role, k));
  }

  predicate AllBought(ps: seq<Panel>, role: int) {
    forall i | 0 <= i < |ps| :: Bought(ps[i], role)
  }

  lemma {:induction false} PayKeepsSound(p: Purse, c: Cost)
    requires SoundPurse(p) && Pay(p, c).Ok?
    ensures SoundPurse(Pay(p, c).value)
  {
  }

  /** What would come back fits 32 bits beside what is there. */
  ghost predicate Room(p: Purse, forExp: Refund, ps: seq<Panel>) {
    && p.cole + Total(forExp, Cole) + Sum(ps, Price(Cole)) <= I32_MAX
    && p.free + Total(forExp, Gem) + Sum(ps, Price(Gem)) <= I32_MAX
    && forall id :: Held(p.items, id) + Total(forExp, Item(id)) + Sum(ps, Price(Item(id))) <= I32_MAX
  }

  lemma {:induction false} RoomFits(p: Purse, forExp: Refund, ps: seq<Panel>)
    ensures Room(p, forExp, ps) <==> Fits(p, RefundAll(forExp, ps))
  {
    hide Total, Sum, RefundAll, Price;
    forall r ensures Total(RefundAll(forExp, ps), r) == Total(forExp, r) + Sum(ps, Price(r)) {
      RefundAllTotal(forExp, ps, r);
    }
    if Room(p, forExp, ps) {
      forall id ensures Held(p.items, id) + Total(RefundAll(forExp, ps), Item(id)) <= I32_MAX {
        assert Held(p.items, id) + Total(forExp, Item(id)) + Sum(ps, Price(Item(id))) <= I32_MAX;
      }
    }
    if Fits(p, RefundAll(forExp, ps)) {
      forall id ensures Held(p.items, id) + Total(forExp, Item(id)) + Sum(ps, Price(Item(id))) <= I32_MAX {
        assert Held(p.items, id) + Total(RefundAll(forExp, ps), Item(id)) <= I32_MAX;
      }
    }
  }

  // ----- sums beyond 32 bits -------------------------------------------------------------------

  function WrapEach(rs: Refund): Refund
    decreases |rs|
  {
    if rs == [] then [] else [(rs[0].0, Wrap32(rs[0].1))] + WrapEach(rs[1..])
  }

  /** What of the amounts due is handed to the rewards: wrapped to 32 bits, and nothing that is then not positive. */
  function Payout(rs: Refund): Refund
    decreases |rs|
  {
    if rs == [] then [] else [(rs[0].0, Max(Wrap32(rs[0].1), 0))] + Payout(rs[1..])
  }

  predicate AllFit(rs: Refund) {
    forall i | 0 <= i < |rs| :: rs[i].1 <= I32_MAX
  }

  /** Each entry that falls on the resource fits 32 bits. */
  predicate EntriesFit(rs: Refund, r: Res) {
    forall i | 0 <= i < |rs| && ResOf(rs[i].0.0, rs[i].0.1) == r :: rs[i].1 <= I32_MAX
  }

  /** What is due for a reset, entry by entry. */
  function Bill(rules: Rules, ch: Character, onlyLevel: bool): Refund
    requires GoodRules(rules) && Playable(rules, ch)
  {
    RefundAll(ExpRefund(rules, ch.exp), if onlyLevel then [] else OwnedBoth(rules, ch))
  }

  /** One entry for each kind and id, by kind and then by id. */
  predicate ByKey(rs: Refund) {
    forall i, j | 0 <= i < j < |rs| ::
      rs[i].0.0 < rs[j].0.0 || (rs[i].0.0 == rs[j].0.0 && rs[i].0.1 < rs[j].0.1)
  }

  /** The bill lists one entry for each kind and id, in the order in which they are then paid out. */
  lemma {:induction false} BillByKey(rules: Rules, ch: Character, onlyLevel: bool)
    requires GoodRules(rules) && Playable(rules, ch)
    ensures ByKey(Bill(rules, ch, onlyLevel))
  {
    hide ExpCole;
    var rows := Descending(rules.expItems);
    RowsStay(rules.expItems, rows);
    ItemsByKey([], ch.exp, rows);
    SetByKey(ExpItems([], ch.exp, rows).0, (3, 1), ExpCole(rules, ch.exp));
    PanelsByKey(ExpRefund(rules, ch.exp), if onlyLevel then [] else OwnedBoth(rules, ch));
  }

  lemma {:induction false} ItemsByKey(rs: Refund, exp: nat, rows: seq<(int, int)>)
    requires ByKey(rs) && forall i | 0 <= i < |rows| :: rows[i].1 > 0
    ensures ByKey(ExpItems(rs, exp, rows).0)
    decreases |rows|
  {
    hide ByKey;
    if rows != [] {
      var quantity := exp / rows[0].1;
      SetByKey(rs, (5, rows[0].0), quantity);
      ItemsByKey(if quantity > 0 then SetRefund(rs, (5, rows[0].0), quantity) else rs, exp % rows[0].1, rows[1..]);
    }
  }

  lemma {:induction false} PanelsByKey(rs: Refund, ps: seq<Panel>)
    requires ByKey(rs)
    ensures ByKey(RefundAll(rs, ps))
    decreases |ps|
  {
    hide ByKey;
    if ps != [] {
      var coins := AddRefund(rs, (3, 1), ps[0].cole);
      AddByKey(rs, (3, 1), ps[0].cole);
      CostsByKey(coins, ps[0].costs);
      PanelsByKey(RefundCosts(coins, ps[0].costs), ps[1..]);
    }
  }

  lemma {:induction false} CostsByKey(rs: Refund, cs: seq<Cost>)
    requires ByKey(rs)
    ensures ByKey(RefundCosts(rs, cs))
    decreases |cs|
  {
    hide ByKey;
    if cs != [] {
      var key := (cs[0].kind, cs[0].id);
      AddByKey(rs, key, cs[0].quantity);
      CostsByKey(AddRefund(rs, key, cs[0].quantity), cs[1..]);
    }
  }

  lemma {:induction false} AddByKey(rs: Refund, key: (int, int), quantity: int)
    requires ByKey(rs)
    ensures var r := AddRefund(rs, key, quantity);
            ByKey(r) && forall i | 0 <= i < |r| :: r[i].0 == key || exists k | 0 <= k < |rs| :: rs[k].0 == r[i].0
    decreases |rs|
  {
    if rs != [] && !KeyBefore(key, rs[0].0) && rs[0].0 != key {
      var rest := AddRefund(rs[1..], key, quantity);
      AddByKey(rs[1..], key, quantity);
      forall i | 0 <= i < |rest| ensures rest[i].0 == key || exists k | 0 < k < |rs| :: rs[k].0 == rest[i].0 {
        if rest[i].0 != key { var k :| 0 <= k < |rs[1..]| && rs[1..][k].0 == rest[i].0; assert rs[k + 1].0 == rest[i].0; }
      }
    }
  }

  lemma {:induction false} SetByKey(rs: Refund, key: (int, int), quantity: int)
    requires ByKey(rs)
    ensures var r := SetRefund(rs, key, quantity);
            ByKey(r) && forall i | 0 <= i < |r| :: r[i].0 == key || exists k | 0 <= k < |rs| :: rs[k].0 == r[i].0
    decreases |rs|
  {
    if rs != [] && !KeyBefore(key, rs[0].0) && rs[0].0 != key {
      var rest := SetRefund(rs[1..], key, quantity);
      SetByKey(rs[1..], key, quantity);
      forall i | 0 <= i < |rest| ensures rest[i].0 == key || exists k | 0 < k < |rs| :: rs[k].0 == rest[i].0 {
        if rest[i].0 != key { var k :| 0 <= k < |rs[1..]| && rs[1..][k].0 == rest[i].0; assert rs[k + 1].0 == rest[i].0; }
      }
    }
  }

  lemma {:induction false} AddWraps(rs: Refund, key: (int, int), quantity: int)
    ensures AddWrapping(WrapEach(rs), key, quantity) == WrapEach(AddRefund(rs, key, quantity))
    decreases |rs|
  {
    hide Wrap32;
    var all := AddRefund(rs, key, quantity);
    if rs == [] || KeyBefore(key, rs[0].0) {
      assert all[1..] == rs;
    } else {
      assert WrapEach(rs)[1..] == WrapEach(rs[1..]);
      if rs[0].0 == key {
        WrapAdd(rs[0].1, quantity);
        assert all[1..] == rs[1..];
      } else {
        AddWraps(rs[1..], key, quantity);
        assert all[1..] == AddRefund(rs[1..], key, quantity);
      }
    }
  }

  lemma {:induction false} CostsWrap(rs: Refund, cs: seq<Cost>)
    ensures CostsWrapping(WrapEach(rs), cs) == WrapEach(RefundCosts(rs, cs))
    decreases |cs|
  {
    hide WrapEach, AddRefund, AddWrapping;
    if cs != [] {
      AddWraps(rs, (cs[0].kind, cs[0].id), cs[0].quantity);
      CostsWrap(AddRefund(rs, (cs[0].kind, cs[0].id), cs[0].quantity), cs[1..]);
    }
  }

  /** The unchecked sums are the amounts due modulo 2^32, whatever was added in between. */
  lemma {:induction false} AllWrap(rs: Refund, ps: seq<Panel>)
    ensures AllWrapping(WrapEach(rs), ps) == WrapEach(RefundAll(rs, ps))
    decreases |ps|
  {
    hide WrapEach, AddRefund, AddWrapping, RefundCosts, CostsWrapping;
    if ps != [] {
      AddWraps(rs, (3, 1), ps[0].cole);
      CostsWrap(AddRefund(rs, (3, 1), ps[0].cole), ps[0].costs);
      AllWrap(RefundCosts(AddRefund(rs, (3, 1), ps[0].cole), ps[0].costs), ps[1..]);
    }
  }

  lemma {:induction false} FittingStays(rs: Refund)
    requires NonNegativeRefund(rs) && AllFit(rs)
    ensures WrapEach(rs) == rs && Payout(rs) == rs
    decreases |rs|
  {
    hide Wrap32;
    if rs != [] {
      assert rs == [rs[0]] + rs[1..];
      FittingStays(rs[1..]);
    }
  }

  lemma {:induction false} CreditPayout(p: Purse, rs: Refund)
    ensures CreditAll(p, WrapEach(rs)) == CreditAll(p, Payout(rs))
    decreases |rs|
  {
    hide Wrap32, Credit;
    if rs != [] {
      assert WrapEach(rs)[1..] == WrapEach(rs[1..]) && Payout(rs)[1..] == Payout(rs[1..]);
      if Wrap32(rs[0].1) <= 0 { CreditPayout(p, rs[1..]); }
      else if Credit(p, rs[0].0.0, rs[0].0.1, Wrap32(rs[0].1)).Ok? {
        CreditPayout(Credit(p, rs[0].0.0, rs[0].0.1, Wrap32(rs[0].1)).value, rs[1..]);
      }
    }
  }

  /** Never more than what is due is handed out, and all of it exactly when each entry fits. */
  lemma {:induction false} PayoutTotal(rs: Refund, r: Res)
    requires NonNegativeRefund(rs)
    ensures NonNegativeRefund(Payout(rs)) && Total(Payout(rs), r) <= Total(rs, r)
    ensures Total(Payout(rs), r) == Total(rs, r) <==> EntriesFit(rs, r)
    decreases |rs|
  {
    hide Wrap32, ResOf;
    if rs != [] {
      var rest := rs[1..];
      assert rs == [rs[0]] + rest;
      PayoutTotal(rest, r);
      WrapLoses(rs[0].1);
      assert Payout(rs)[1..] == Payout(rest);
      assert forall i | 0 < i < |rs| :: rs[i] == rest[i - 1];
      assert EntriesFit(rs, r) <==> (ResOf(rs[0].0.0, rs[0].0.1) == r ==> rs[0].1 <= I32_MAX) && EntriesFit(rest, r) by {
        if EntriesFit(rs, r) {
          forall i | 0 <= i < |rest| && ResOf(rest[i].0.0, rest[i].0.1) == r ensures rest[i].1 <= I32_MAX {
            assert rs[i + 1] == rest[i];
          }
        }
      }
    }
  }

  /** An entry is at most what falls on its resource. */
  lemma {:induction false} EntryBound(rs: Refund, i: nat)
    requires NonNegativeRefund(rs) && i < |rs|
    ensures rs[i].1 <= Total(rs, ResOf(rs[i].0.0, rs[i].0.1))
    decreases |rs|
  {
    hide ResOf;
    var r := ResOf(rs[i].0.0, rs[i].0.1);
    assert rs == [rs[0]] + rs[1..];
    TotalNonNegative(rs[1..], r);
    if i > 0 { EntryBound(rs[1..], i - 1); }
  }

  lemma {:induction false} SmallTotalFits(rs: Refund, r: Res)
    requires NonNegativeRefund(rs) && Total(rs, r) <= I32_MAX
    ensures EntriesFit(rs, r)
  {
    hide Total, ResOf;
    forall i | 0 <= i < |rs| && ResOf(rs[i].0.0, rs[i].0.1) == r ensures rs[i].1 <= I32_MAX {
      EntryBound(rs, i);
    }
  }

  lemma {:induction false} SetRefundFits(rs: Refund, key: (int, int), quantity: int)
    requires AllFit(rs) && quantity <= I32_MAX
    ensures AllFit(SetRefund(rs, key, quantity))
    decreases |rs|
  {
    if rs != [] && !KeyBefore(key, rs[0].0) && rs[0].0 != key { SetRefundFits(rs[1..], key, quantity); }
  }

  lemma {:induction false} ExpItemsFit(rs: Refund, exp: nat, rows: seq<(int, int)>)
    requires AllFit(rs) && exp <= I32_MAX && forall i | 0 <= i < |rows| :: rows[i].1 > 0
    ensures AllFit(ExpItems(rs, exp, rows).0)
    decreases |rows|
  {
    hide SetRefund, AllFit;
    if rows != [] {
      Division(exp, rows[0].1);
      var quantity := exp / rows[0].1;
      assert quantity <= exp by { AtMost(quantity, rows[0].1, exp); }
      SetRefundFits(rs, (5, rows[0].0), quantity);
      ExpItemsFit(if quantity > 0 then SetRefund(rs, (5, rows[0].0), quantity) else rs, exp % rows[0].1, rows[1..]);
    }
  }

  lemma {:induction false} AtMost(q: int, b: int, a: int)
    requires b > 0 && q >= 0 && q * b <= a
    ensures q <= a
  {
    assert q * b >= q by { assert q * (b - 1) >= 0; }
  }

  /** What is paid back for experience fits, so that the sums begin at the amounts due. */
  lemma {:induction false} ExpRefundFits(rules: Rules, exp: nat)
    requires GoodRules(rules) && exp <= I32_MAX && ExpCole(rules, exp) <= I32_MAX
    ensures WrapEach(ExpRefund(rules, exp)) == ExpRefund(rules, exp)
  {
    hide SetRefund, ExpItems, Descending, ExpCole, WrapEach, AllFit, NonNegativeRefund;
    var rows := Descending(rules.expItems);
    RowsStay(rules.expItems, rows);
    assert AllFit([]) by { NothingFits(); }
    ExpItemsFit([], exp, rows);
    SetRefundFits(ExpItems([], exp, rows).0, (3, 1), ExpCole(rules, exp));
    ExpRefundOk(rules, exp);
    FittingStays(ExpRefund(rules, exp));
  }

  lemma {:induction false} NothingFits()
    ensures AllFit([])
  {
  }

  /** What a reset that comes so far hands to the rewards. */
  lemma {:induction false} ResetCredits(rules: Rules, ch: Character, onlyLevel: bool, paid: Purse)
    requires GoodRules(rules) && Playable(rules, ch) && ExpCole(rules, ch.exp) <= I32_MAX
    ensures var ps := if onlyLevel then [] else OwnedBoth(rules, ch);
            CreditAll(paid, AllWrapping(ExpRefund(rules, ch.exp), ps)) == CreditAll(paid, Payout(Bill(rules, ch, onlyLevel)))
  {
    hide CreditAll, AllWrapping, RefundAll, ExpRefund, ExpCole, OwnedBoth, WrapEach, Payout;
    var ps := if onlyLevel then [] else OwnedBoth(rules, ch);
    ExpRefundFits(rules, ch.exp);
    AllWrap(ExpRefund(rules, ch.exp), ps);
    CreditPayout(paid, Bill(rules, ch, onlyLevel));
  }

  /**
   * The full reset is granted exactly when there is something to reset, its fee can be paid, no number would leave its
   * range on the way, and the payout is of kinds that rewards support and fits 32 bits beside what is there. When the
   * amounts due fit 32 bits themselves, that is: no owned panel was paid in paid gems or character pieces, and there is
   * room for everything.
   */
  lemma {:induction false} ResetExactly(rules: Rules, st: State)
    requires GoodRules(rules) && Playable(rules, st.ch) && SoundPurse(st.purse)
    requires AllBought(OwnedBoth(rules, st.ch), st.ch.role)
    ensures var ps, paid, bill := OwnedBoth(rules, st.ch), Pay(st.purse, Fee(rules, st.ch)), Bill(rules, st.ch, false);
            && (Reset(rules, st, false).Ok? <==>
                  && !NothingToReset(st.ch, false) && paid.Ok? && Undoable(st.stats, st.ch.role, ps)
                  && ExpCole(rules, st.ch.exp) <= I32_MAX && CreditsOk(Payout(bill)) && Fits(paid.value, Payout(bill)))
            && (AllFit(bill) && paid.Ok? ==>
                  (CreditsOk(Payout(bill)) <==> forall i | 0 <= i < |ps| :: Returnable(ps[i]))
                  && (Fits(paid.value, Payout(bill)) <==> Room(paid.value, ExpRefund(rules, st.ch.exp), ps)))
  {
    hide Pay, UndoAll, CreditAll, RefundAll, AllWrapping, ExpRefund, ExpCole, Undoable, Returnable, Bought, OwnedBoth, NonNegativeRefund;
    hide CreditsOk, SoundPurse, Fits, Room, Payout, AllFit, Fee;
    var ps, bill := OwnedBoth(rules, st.ch), Bill(rules, st.ch, false);
    ExpRefundOk(rules, st.ch.exp);
    RefundAllOk(ExpRefund(rules, st.ch.exp), ps, st.ch.role);
    UndoExactly(st.stats, st.ch.role, ps);
    PayoutTotal(bill, Cole);
    if AllFit(bill) { FittingStays(bill); }
    if Pay(st.purse, Fee(rules, st.ch)).Ok? {
      var paid := Pay(st.purse, Fee(rules, st.ch)).value;
      PayKeepsSound(st.purse, Fee(rules, st.ch));
      CreditAllExactly(paid, Payout(bill));
      RoomFits(paid, ExpRefund(rules, st.ch.exp), ps);
      if ExpCole(rules, st.ch.exp) <= I32_MAX { ResetCredits(rules, st.ch, false, paid); }
    }
  }

  function FeeOn(rules: Rules, ch: Character, r: Res): int {
    if r == Item(rules.resetItem) then Fee(rules, ch).quantity else 0
  }

  /**
   * One granted reset. Of what is due on a resource, the prices of the owned panels and the experience, never more comes
   * back; all of it does if and only if each entry of the bill on that resource fits 32 bits, as when the whole does.
   * Every number loses what the panels gave it.
   */
  lemma {:induction false} ResetAccounts(rules: Rules, st: State, onlyLevel: bool, r: Res, k: Key)
    requires GoodRules(rules) && Playable(rules, st.ch) && Reset(rules, st, onlyLevel).Ok?
    requires AllBought(OwnedBoth(rules, st.ch), st.ch.role)
    ensures var ps, fin := if onlyLevel then [] else OwnedBoth(rules, st.ch), Reset(rules, st, onlyLevel).value;
            var back := Amount(fin.purse, r) - Amount(st.purse, r) + FeeOn(rules, st.ch, r);
            var due := Total(ExpRefund(rules, st.ch.exp), r) + Sum(ps, Price(r));
            && back == Total(Payout(Bill(rules, st.ch, onlyLevel)), r) && back <= due
            && (back == due <==> EntriesFit(Bill(rules, st.ch, onlyLevel), r))
            && (due <= I32_MAX ==> back == due)
            && Get(fin.stats, k) == Get(st.stats, k) - Sum(ps, Gain(st.ch.role, k))
  {
    hide Pay, UndoAll, CreditAll, RefundAll, AllWrapping, ExpRefund, ExpCole, Bought, OwnedBoth, NonNegativeRefund, CreditsOk, Amount;
    hide Total, Sum, Level, Payout, EntriesFit;
    var ps := if onlyLevel then [] else OwnedBoth(rules, st.ch);
    var bill, paid := Bill(rules, st.ch, onlyLevel), Pay(st.purse, Fee(rules, st.ch)).value;
    PayAmount(st.purse, Fee(rules, st.ch), r);
    ExpRefundOk(rules, st.ch.exp);
    RefundAllOk(ExpRefund(rules, st.ch.exp), ps, st.ch.role);
    RefundAllTotal(ExpRefund(rules, st.ch.exp), ps, r);
    UndoAllAccounts(st.stats, st.ch.role, ps, k);
    ResetCredits(rules, st.ch, onlyLevel, paid);
    PayoutTotal(bill, r);
    CreditAllAmount(paid, Payout(bill), r);
    if Total(bill, r) <= I32_MAX { SmallTotalFits(bill, r); }
  }

  // ----- whole histories -----------------------------------------------------------------------

  /** `Elsewhere` is any other part of the game: it may move resources, numbers and experience, but not the boards. */
  datatype Event =
    | Buy(w: Which, order: Order)
    | ResetCall(onlyLevel: bool)
    | Elsewhere(purse: Purse, stats: Stats, exp: Count32)

  function After(rules: Rules, st: State, ev: Event): Option<State>
    requires GoodRules(rules) && Playable(rules, st.ch)
  {
    match ev
    case Buy(w, order) => (match Release(rules, st, w, order) case Err(_) => None case Ok(r) => Some(r.0))
    case ResetCall(onlyLevel) => (match Reset(rules, st, onlyLevel) case Err(_) => None case Ok(s) => Some(s))
    case Elsewhere(purse, stats, exp) => Some(st.(purse := purse, stats := stats, ch := st.ch.(exp := exp)))
  }

  /** Nothing is ruled out between two orders: any state with the same boards is one event away. */
  lemma {:induction false} ElsewhereReaches(rules: Rules, st: State, want: State) returns (ev: Event)
    requires GoodRules(rules) && Playable(rules, st.ch) && want.ch == st.ch.(exp := want.ch.exp) && 0 <= want.ch.exp <= I32_MAX
    ensures After(rules, st, ev) == Some(want)
  {
    ev := Elsewhere(want.purse, want.stats, want.ch.exp);
  }

  /** The books kept beside a history: what the normal and the EX board have cost in `r` since the last full reset, and
   * what everything else has put on the number `k`. */
  datatype Books = Books(spent: int, foreign: int)

  function Record(b: Books, st: State, next: State, ev: Event, r: Res, k: Key): Books {
    match ev
    case Buy(Neo, _) => b.(foreign := b.foreign + Get(next.stats, k) - Get(st.stats, k))
    case Buy(_, _) => b.(spent := b.spent + Amount(st.purse, r) - Amount(next.purse, r))
    case ResetCall(onlyLevel) => if onlyLevel then b else b.(spent := 0)
    case Elsewhere(_, _, _) => b.(foreign := b.foreign + Get(next.stats, k) - Get(st.stats, k))
  }

  /** What the books say is what the owned panels say. */
  predicate Balanced(rules: Rules, st: State, b: Books, r: Res, k: Key)
    requires Playable(rules, st.ch)
  {
    var ps := OwnedBoth(rules, st.ch);
    && b.spent == Sum(ps, Price(r))
    && Get(st.stats, k) == b.foreign + Sum(ps, Gain(st.ch.role, k))
    && Sum(ps, Unpaid(st.ch.role)) == 0
  }

  function Unpaid(role: int): Panel -> int {
    (p: Panel) => if Bought(p, role) then 0 else 1
  }

  lemma {:induction false} AllPaid(ps: seq<Panel>, role: int)
    ensures Sum(ps, Unpaid(role)) >= 0
    ensures Sum(ps, Unpaid(role)) == 0 <==> AllBought(ps, role)
    decreases |ps|
  {
    hide Bought;
    if ps != [] {
      assert ps == [ps[0]] + ps[1..];
      AllPaid(ps[1..], role);
    }
  }

  lemma {:induction false} ReleaseOwns(rules: Rules, st: State, w: Which, order: Order, f: Panel -> int)
    requires Playable(rules, st.ch) && Release(rules, st, w, order).Ok?
    ensures var next, pr := Release(rules, st, w, order).value.0, ProgressOf(st.ch, w);
            var to := ProgressOf(next.ch, w);
            && Playable(rules, next.ch) && BoardOf(rules, w).Some? && 1 <= pr.page && to.page <= |BoardOf(rules, w).value|
            && Sum(OwnedBoth(rules, next.ch), f)
               == Sum(OwnedBoth(rules, st.ch), f)
                  + (if w.Neo? then 0 else Sum(ToBuy(BoardOf(rules, w).value, pr, to.page, to.bits, pr.page), f))
  {
    hide BuyAll, Sum, ToBuy, Owned, Limit, Complete, All;
    var to := Destination(rules, st.ch, w, order).value;
    var pr := ProgressOf(st.ch, w);
    var board := BoardOf(rules, w).value;
    BuyKeepsCharacter(st, ToBuy(board, pr, to.page, to.bits, pr.page));
    var next := Release(rules, st, w, order).value.0;
    assert next.ch == SetProgress(st.ch, w, to);
    SumConcat(Owned(rules.normal, st.ch.normal), Owned(rules.ex, st.ch.ex), f);
    if !w.Neo? {
      OrderAddsPanels(board, pr, to.page, to.bits, f);
      assert OnBoard(board, to);
    }
    SumConcat(Owned(rules.normal, next.ch.normal), Owned(rules.ex, next.ch.ex), f);
  }

  function One(p: Panel): int {
    1
  }

  lemma {:induction false} SumOfOnes(ps: seq<Panel>)
    ensures Sum(ps, One) == |ps|
  {
    if ps != [] { SumOfOnes(ps[1..]); }
  }

  /** An order reports as many purchases as the board has panels more than before. */
  lemma {:induction false} ReleaseCounts(rules: Rules, st: State, w: Which, order: Order)
    requires Playable(rules, st.ch) && !w.Neo? && Release(rules, st, w, order).Ok?
    ensures var (next, bought) := Release(rules, st, w, order).value;
            Playable(rules, next.ch) && |OwnedBoth(rules, next.ch)| == |OwnedBoth(rules, st.ch)| + bought
  {
    hide BuyAll, Sum, ToBuy, OwnedBoth, Destination, Limit;
    ReleaseOwns(rules, st, w, order, One);
    var next := Release(rules, st, w, order).value.0;
    var to, pr := Destination(rules, st.ch, w, order).value, ProgressOf(st.ch, w);
    var ps := ToBuy(BoardOf(rules, w).value, pr, to.page, to.bits, pr.page);
    BuyKeepsCharacter(st, ps);
    SumOfOnes(ps);
    SumOfOnes(OwnedBoth(rules, st.ch));
    SumOfOnes(OwnedBoth(rules, next.ch));
  }

  lemma {:induction false} ReleaseBalanced(rules: Rules, st: State, b: Books, w: Which, order: Order, r: Res, k: Key)
    requires GoodRules(rules) && Playable(rules, st.ch) && Balanced(rules, st, b, r, k) && Release(rules, st, w, order).Ok?
    ensures var next := Release(rules, st, w, order).value.0;
            Playable(rules, next.ch) && next.ch.role == st.ch.role
            && Balanced(rules, next, Record(b, st, next, Buy(w, order), r, k), r, k)
  {
    hide BuyAll, Sum, ToBuy, OwnedBoth, Destination, Get, Amount, Bought, Price, Gain, Unpaid, Playable;
    var next := Release(rules, st, w, order).value.0;
    ReleaseOwns(rules, st, w, order, Price(r));
    ReleaseOwns(rules, st, w, order, Gain(st.ch.role, k));
    ReleaseOwns(rules, st, w, order, Unpaid(st.ch.role));
    var to := Destination(rules, st.ch, w, order).value;
    var pr := ProgressOf(st.ch, w);
    var ps := ToBuy(BoardOf(rules, w).value, pr, to.page, to.bits, pr.page);
    BuyKeepsCharacter(st, ps);
    BuyAllAccounts(st, ps, r, k);
    AllPaid(ps, st.ch.role);
  }

  lemma {:induction false} ResetBalanced(rules: Rules, st: State, b: Books, onlyLevel: bool, r: Res, k: Key)
    requires GoodRules(rules) && Playable(rules, st.ch) && Balanced(rules, st, b, r, k) && Reset(rules, st, onlyLevel).Ok?
    ensures var next := Reset(rules, st, onlyLevel).value;
            Playable(rules, next.ch) && next.ch.role == st.ch.role
            && Balanced(rules, next, Record(b, st, next, ResetCall(onlyLevel), r, k), r, k)
  {
    hide Sum, Get, Amount, Bought, Pay, UndoAll, CreditAll, AllWrapping, ExpRefund, ExpCole, Level, Total, Pick, FullPages;
    hide Bill, Payout, EntriesFit, FeeOn;
    AllPaid(OwnedBoth(rules, st.ch), st.ch.role);
    ResetAccounts(rules, st, onlyLevel, r, k);
    var next := Reset(rules, st, onlyLevel).value;
    if !onlyLevel {
      NothingOwned(rules.normal);
      NothingOwned(rules.ex);
      assert OwnedBoth(rules, next.ch) == [];
    }
    EmptySums(r, k, st.ch.role);
  }

  lemma {:induction false} EmptySums(r: Res, k: Key, role: int)
    ensures Sum([], Price(r)) == 0 && Sum([], Gain(role, k)) == 0 && Sum([], Unpaid(role)) == 0
  {
  }

  lemma {:induction false} NothingOwned(board: Board)
    requires |board| >= 1
    ensures Owned(board, Progress(1, {})) == []
  {
    PickNothing(board[0], 0);
  }

  lemma {:induction false} PickNothing(page: Page, i: nat)
    requires i <= |page|
    ensures Pick(page, {}, i) == []
    decreases |page| - i
  {
    if i < |page| { PickNothing(page, i + 1); }
  }

  function Run(rules: Rules, st: State, evs: seq<Event>): Option<State>
    requires GoodRules(rules) && Playable(rules, st.ch)
    decreases |evs|
  {
    if evs == [] then Some(st)
    else match After(rules, st, evs[0])
      case None => None
      case Some(next) => if Playable(rules, next.ch) then Run(rules, next, evs[1..]) else None
  }

  function BooksOf(rules: Rules, st: State, b: Books, evs: seq<Event>, r: Res, k: Key): Books
    requires GoodRules(rules) && Playable(rules, st.ch)
    decreases |evs|
  {
    if evs == [] then b
    else match After(rules, st, evs[0])
      case None => b
      case Some(next) =>
        if Playable(rules, next.ch) then BooksOf(rules, next, Record(b, st, next, evs[0], r, k), evs[1..], r, k) else b
  }

  lemma {:induction false} EventBalanced(rules: Rules, st: State, b: Books, ev: Event, r: Res, k: Key)
    requires GoodRules(rules) && Playable(rules, st.ch) && Balanced(rules, st, b, r, k) && After(rules, st, ev).Some?
    ensures var next := After(rules, st, ev).value;
            Playable(rules, next.ch) && next.ch.role == st.ch.role
            && Balanced(rules, next, Record(b, st, next, ev, r, k), r, k)
  {
    hide Release, Reset, OwnedBoth, Sum, Get, Amount, OnBoard;
    match ev
    case Buy(w, order) => ReleaseBalanced(rules, st, b, w, order, r, k);
    case ResetCall(onlyLevel) => ResetBalanced(rules, st, b, onlyLevel, r, k);
    case Elsewhere(_, _, _) => SameOwned(rules, st.ch, After(rules, st, ev).value.ch);
  }

  lemma {:induction false} RunBalanced(rules: Rules, st: State, b: Books, evs: seq<Event>, r: Res, k: Key)
    requires GoodRules(rules) && Playable(rules, st.ch) && Balanced(rules, st, b, r, k) && Run(rules, st, evs).Some?
    ensures var end := Run(rules, st, evs).value;
            Playable(rules, end.ch) && end.ch.role == st.ch.role
            && Balanced(rules, end, BooksOf(rules, st, b, evs, r, k), r, k)
    decreases |evs|
  {
    hide After, Balanced, Playable, Record, GoodRules;
    if evs != [] {
      EventBalanced(rules, st, b, evs[0], r, k);
      var next := After(rules, st, evs[0]).value;
      RunBalanced(rules, next, Record(b, st, next, evs[0], r, k), evs[1..], r, k);
    }
  }

  lemma {:induction false} SameOwned(rules: Rules, a: Character, c: Character)
    requires Playable(rules, a) && Playable(rules, c) && a.normal == c.normal && a.ex == c.ex
    ensures OwnedBoth(rules, a) == OwnedBoth(rules, c)
  {
  }

  /**
   * Conservation. Take any history of purchases on all boards, resets, and whatever else the game does, that starts with
   * empty boards. A full reset at its end refunds, besides its own fee and the pay-back for experience, never more than
   * the normal and EX boards have cost since the last one, and exactly that if and only if each entry of its bill fits 32
   * bits; every number is left at its starting value plus what came from elsewhere, including the shares of other
   * characters in a rate of the role.
   */
  lemma {:induction false} FullResetConserves(rules: Rules, st: State, evs: seq<Event>, r: Res, k: Key)
    requires GoodRules(rules) && Playable(rules, st.ch) && Pristine(st.ch.normal) && Pristine(st.ch.ex)
    requires Run(rules, st, evs).Some?
    ensures Playable(rules, Run(rules, st, evs).value.ch)
    ensures var end := Run(rules, st, evs).value;
            Reset(rules, end, false).Ok? ==>
              var fin, books := Reset(rules, end, false).value, BooksOf(rules, st, Books(0, Get(st.stats, k)), evs, r, k);
              var back := Amount(fin.purse, r) - Amount(end.purse, r) + FeeOn(rules, end.ch, r);
              var due := books.spent + Total(ExpRefund(rules, end.ch.exp), r);
              && Pristine(fin.ch.normal) && Pristine(fin.ch.ex) && fin.ch.neo == end.ch.neo && fin.ch.exp == 0
              && back <= due && (back == due <==> EntriesFit(Bill(rules, end.ch, false), r)) && (due <= I32_MAX ==> back == due)
              && Get(fin.stats, k) == books.foreign
  {
    hide Sum, Get, Amount, Run, BooksOf, Reset, ExpRefund, Total, Pick, FullPages, FeeOn, EntriesFit, Bill, Payout;
    NothingOwned(rules.normal);
    NothingOwned(rules.ex);
    assert OwnedBoth(rules, st.ch) == [];
    EmptySums(r, k, st.ch.role);
    RunBalanced(rules, st, Books(0, Get(st.stats, k)), evs, r, k);
    var end := Run(rules, st, evs).value;
    AllPaid(OwnedBoth(rules, end.ch), end.ch.role);
    if Reset(rules, end, false).Ok? {
      ResetAccounts(rules, end, false, r, k);
      ResetEmpties(rules, end);
    }
  }

  /** Resetting the level alone leaves the boards and the numbers as they are. */
  lemma {:induction false} LevelResetKeepsBoards(rules: Rules, st: State)
    requires GoodRules(rules) && Playable(rules, st.ch) && Reset(rules, st, true).Ok?
    ensures var fin := Reset(rules, st, true).value;
            fin.ch == st.ch.(exp := 0) && fin.stats == st.stats
  {
    hide CreditAll, AllWrapping, ExpRefund, Pay, OwnedBoth, ExpCole;
  }

  lemma {:induction false} ResetEmpties(rules: Rules, st: State)
    requires GoodRules(rules) && Playable(rules, st.ch) && Reset(rules, st, false).Ok?
    ensures var ch := Reset(rules, st, false).value.ch;
            Pristine(ch.normal) && Pristine(ch.ex) && ch.neo == st.ch.neo && ch.exp == 0
  {
    hide UndoAll, CreditAll, RefundAll, ExpRefund, Pay, OwnedBoth;
  }

  // ----- never refused for the numbers ---------------------------------------------------------

  /** Every panel of the boards that a reset walks raises its number. */
  predicate Raising(board: Board) {
    forall n, i | 0 <= n < |board| && 0 <= i < |board[n]| :: board[n][i].value >= 0
  }

  predicate AllRaise(ps: seq<Panel>) {
    forall i | 0 <= i < |ps| :: ps[i].value >= 0
  }

  lemma {:induction false} PickRaises(page: Page, keep: set<int>, i: nat)
    requires i <= |page| && AllRaise(page)
    ensures AllRaise(Pick(page, keep, i))
    decreases |page| - i
  {
    if i < |page| { PickRaises(page, keep, i + 1); }
  }

  lemma {:induction false} FullPagesRaise(board: Board, n: nat)
    requires n <= |board| && Raising(board)
    ensures AllRaise(FullPages(board, n))
  {
    if n > 0 {
      FullPagesRaise(board, n - 1);
      assert AllRaise(board[n - 1]);
      PickRaises(board[n - 1], All(board[n - 1]), 0);
    }
  }

  lemma {:induction false} OwnedRaise(rules: Rules, ch: Character)
    requires Playable(rules, ch) && Raising(rules.normal) && Raising(rules.ex)
    ensures AllRaise(OwnedBoth(rules, ch))
  {
    hide Pick, FullPages;
    FullPagesRaise(rules.normal, ch.normal.page - 1);
    FullPagesRaise(rules.ex, ch.ex.page - 1);
    PickRaises(rules.normal[ch.normal.page - 1], ch.normal.bits, 0);
    PickRaises(rules.ex[ch.ex.page - 1], ch.ex.bits, 0);
  }

  lemma {:induction false} SumRaises(ps: seq<Panel>, role: int, k: Key)
    requires AllRaise(ps)
    ensures Sum(ps, Gain(role, k)) >= 0
    decreases |ps|
  {
    if ps != [] {
      assert ps == [ps[0]] + ps[1..];
      SumRaises(ps[1..], role, k);
    }
  }

  lemma {:induction false} CoveredIsUndoable(s: Stats, role: int, ps: seq<Panel>)
    requires AllRaise(ps) && AllBought(ps, role) && forall k :: Sum(ps, Gain(role, k)) <= Get(s, k) <= I32_MAX
    ensures Undoable(s, role, ps)
  {
    hide Sum, Get, KeyOf;
    forall j | 0 <= j < |ps| ensures KeyOf(role, ps[j]).Some? && 0 <= Left(s, role, ps, j, KeyOf(role, ps[j]).value) <= I32_MAX {
      assert Bought(ps[j], role);
      var k := KeyOf(role, ps[j]).value;
      assert ps == ps[..j + 1] + ps[j + 1..];
      SumConcat(ps[..j + 1], ps[j + 1..], Gain(role, k));
      SumRaises(ps[..j + 1], role, k);
      SumRaises(ps[j + 1..], role, k);
    }
  }

  /**
   * After any history from empty boards, with panels that raise numbers and everything else contributing nothing negative,
   * the full reset is never refused for the numbers. It is granted exactly when there is something to reset, the fee is at
   * hand, and the payout is of supported kinds and has room; when the amounts due fit 32 bits, that is: every owned panel
   * was paid in free gems, coins or items, and there is room for what comes back.
   */
  lemma {:induction false} ResetGranted(rules: Rules, st: State, evs: seq<Event>)
    requires GoodRules(rules) && Playable(rules, st.ch) && Pristine(st.ch.normal) && Pristine(st.ch.ex)
    requires Raising(rules.normal) && Raising(rules.ex) && Run(rules, st, evs).Some?
    requires SoundPurse(Run(rules, st, evs).value.purse) && SoundStats(Run(rules, st, evs).value.stats)
    requires forall k :: BooksOf(rules, st, Books(0, Get(st.stats, k)), evs, Cole, k).foreign >= 0
    ensures Playable(rules, Run(rules, st, evs).value.ch)
    ensures var end := Run(rules, st, evs).value;
            var ps, paid, bill := OwnedBoth(rules, end.ch), Pay(end.purse, Fee(rules, end.ch)), Bill(rules, end.ch, false);
            && (Reset(rules, end, false).Ok? <==>
                  && !NothingToReset(end.ch, false) && paid.Ok? && ExpCole(rules, end.ch.exp) <= I32_MAX
                  && CreditsOk(Payout(bill)) && Fits(paid.value, Payout(bill)))
            && (AllFit(bill) && paid.Ok? ==>
                  (CreditsOk(Payout(bill)) <==> forall i | 0 <= i < |ps| :: Returnable(ps[i]))
                  && (Fits(paid.value, Payout(bill)) <==> Room(paid.value, ExpRefund(rules, end.ch.exp), ps)))
  {
    hide CreditsOk, Fits, Payout, AllFit, Bill;
    hide Sum, Get, Run, BooksOf, Reset, Pay, Fee, ExpRefund, ExpCole, Room, Raising, AllRaise, Undoable, Returnable, Bought, SoundPurse, OwnedBoth, Playable;
    forall k: Key
      ensures Covered(rules, st, Run(rules, st, evs).value, k) {
      EndCovered(rules, st, evs, k);
    }
    EndCovered(rules, st, evs, Own(1, 1));
    var end := Run(rules, st, evs).value;
    OwnedRaise(rules, end.ch);
    forall k ensures Sum(OwnedBoth(rules, end.ch), Gain(st.ch.role, k)) <= Get(end.stats, k) <= I32_MAX {
      assert Covered(rules, st, end, k);
    }
    CoveredIsUndoable(end.stats, st.ch.role, OwnedBoth(rules, end.ch));
    ResetExactly(rules, end);
  }

  predicate Covered(rules: Rules, st: State, end: State, k: Key) {
    && Playable(rules, end.ch) && end.ch.role == st.ch.role
    && Get(end.stats, k) >= Sum(OwnedBoth(rules, end.ch), Gain(st.ch.role, k))
    && AllBought(OwnedBoth(rules, end.ch), st.ch.role)
  }

  lemma {:induction false} EndCovered(rules: Rules, st: State, evs: seq<Event>, k: Key)
    requires GoodRules(rules) && Playable(rules, st.ch) && Pristine(st.ch.normal) && Pristine(st.ch.ex)
    requires Run(rules, st, evs).Some? && BooksOf(rules, st, Books(0, Get(st.stats, k)), evs, Cole, k).foreign >= 0
    ensures Covered(rules, st, Run(rules, st, evs).value, k)
  {
    hide Sum, Get, Run, BooksOf, Pick, FullPages, Bought;
    NothingOwned(rules.normal);
    NothingOwned(rules.ex);
    assert OwnedBoth(rules, st.ch) == [];
    EmptySums(Cole, k, st.ch.role);
    RunBalanced(rules, st, Books(0, Get(st.stats, k)), evs, Cole, k);
    AllPaid(OwnedBoth(rules, Run(rules, st, evs).value.ch), st.ch.role);
  }

  // ----- resets that are refused ---------------------------------------------------------------

  /** One normal page with the given panels, an empty EX page, and nothing that costs or pays for experience. */
  function OnePage(ps: seq<Panel>): Rules {
    Rules([ps], [[]], None, 1, 1, false, [], 2, 1, [], 0)
  }

  function Newcomer(role: int, purse: Purse): State {
    State(purse, map[], Character(role, 0, Progress(1, {}), Progress(1, {}), Progress(1, {})))
  }

  /** Buying the whole page, from pristine boards. */
  lemma {:induction false} BuyPage(ps: seq<Panel>, role: int, purse: Purse)
    requires ps != [] && BuyAll(Newcomer(role, purse), ps).Ok?
    ensures var bought := BuyAll(Newcomer(role, purse), ps).value;
            var end := bought.(ch := bought.ch.(normal := Progress(1, All(ps))));
            Release(OnePage(ps), Newcomer(role, purse), Normal, Bulk(1, All(ps))) == Ok((end, |ps|))
            && bought.ch == Newcomer(role, purse).ch
  {
    hide BuyAll, All, Pick;
    var st, rules := Newcomer(role, purse), OnePage(ps);
    assert 0 in All(ps);
    assert {} + All(ps) == All(ps) && All(ps) - {} == All(ps);
    ToBuyLast(rules.normal, Progress(1, {}), 1, All(ps));
    assert Wanted(rules.normal, Progress(1, {}), 1, All(ps), 1) == All(ps);
    PickAll(ps, 0);
    assert ps[0..] == ps;
    BuyKeepsCharacter(st, ps);
  }

  lemma {:induction false} PickAll(page: Page, i: nat)
    requires i <= |page|
    ensures Pick(page, All(page), i) == page[i..]
    decreases |page| - i
  {
    hide All;
    if i < |page| {
      PickAll(page, i + 1);
      assert page[i..] == [page[i]] + page[i + 1..];
    }
  }

  /** What is owned after the page was bought, what is due for it, and what its reset hinges on. */
  lemma {:induction false} PageOwned(ps: seq<Panel>, st: State)
    requires ps != [] && st.ch.normal == Progress(1, All(ps)) && st.ch.ex == Progress(1, {}) && st.ch.exp == 0 && SoundPurse(st.purse)
    requires AllBought(ps, st.ch.role)
    ensures var rules := OnePage(ps);
            && GoodRules(rules) && Playable(rules, st.ch) && OwnedBoth(rules, st.ch) == ps && Pay(st.purse, Fee(rules, st.ch)) == Ok(st.purse)
            && Bill(rules, st.ch, false) == RefundAll([((3, 1), 0)], ps)
            && var payout := Payout(Bill(rules, st.ch, false));
               (Reset(rules, st, false).Ok? <==> Undoable(st.stats, st.ch.role, ps) && CreditsOk(payout) && Fits(st.purse, payout))
               && (AllFit(Bill(rules, st.ch, false)) ==> (CreditsOk(payout) <==> forall i | 0 <= i < |ps| :: Returnable(ps[i])))
  {
    hide All, Undoable, Returnable, Bought, Pick, FullPages, RefundAll;
    var rules := OnePage(ps);
    PickAll(ps, 0);
    assert ps[0..] == ps;
    NoPagesOwned(rules.normal);
    NothingOwned(rules.ex);
    assert OwnedBoth(rules, st.ch) == [] + ps + [] == ps;
    assert 0 in All(ps);
    assert !NothingToReset(st.ch, false);
    ResetExactlyHere(rules, st);
  }

  lemma {:induction false} NoPagesOwned(board: Board)
    ensures FullPages(board, 0) == []
  {
  }

  lemma {:induction false} ResetExactlyHere(rules: Rules, st: State)
    requires GoodRules(rules) && Playable(rules, st.ch) && SoundPurse(st.purse) && AllBought(OwnedBoth(rules, st.ch), st.ch.role)
    requires rules.levels == [] && rules.resetLevel == 2 && rules.expItems == [] && st.ch.exp == 0 && !NothingToReset(st.ch, false)
    ensures Pay(st.purse, Fee(rules, st.ch)) == Ok(st.purse)
    ensures ExpRefund(rules, 0) == [((3, 1), 0)]
    ensures var ps, payout := OwnedBoth(rules, st.ch), Payout(Bill(rules, st.ch, false));
            (Reset(rules, st, false).Ok? <==> Undoable(st.stats, st.ch.role, ps) && CreditsOk(payout) && Fits(st.purse, payout))
            && (AllFit(Bill(rules, st.ch, false)) ==> (CreditsOk(payout) <==> forall i | 0 <= i < |ps| :: Returnable(ps[i])))
  {
    hide OwnedBoth, Undoable, Returnable, Reset, Bought, CreditsOk, Fits, Payout, AllFit, Bill, SoundPurse;
    ResetExactly(rules, st);
    NothingForExperience(rules);
  }

  lemma {:induction false} NothingForExperience(rules: Rules)
    requires GoodRules(rules) && rules.expItems == []
    ensures ExpCole(rules, 0) == 0 && ExpRefund(rules, 0) == [((3, 1), 0)]
  {
    assert Descending(rules.expItems) == [];
    assert 0 * rules.colePerExp / 100 == 0;
  }

  /**
   * A panel that lowers what an earlier one has raised is sold, and then stands in the way of the reset, which takes the
   * earlier one back first: from pristine boards, with nothing to pay.
   */
  lemma {:induction false} MixedSignsRefuseReset(role: int, up: int, down: int)
    requires 0 < up <= I32_MAX && down < 0 && up + down >= 0
    ensures var ps := [Panel(1, Some(1), up, [], 0), Panel(1, Some(1), down, [], 0)];
            var rules, st := OnePage(ps), Newcomer(role, Purse(0, 0, 0, map[], map[]));
            var sold := Release(rules, st, Normal, Bulk(1, All(ps)));
            && GoodRules(rules) && Playable(rules, st.ch) && sold.Ok? && Playable(rules, sold.value.0.ch)
            && Pay(sold.value.0.purse, Fee(rules, sold.value.0.ch)).Ok? && Reset(rules, sold.value.0, false).Err?
  {
    var ps := [Panel(1, Some(1), up, [], 0), Panel(1, Some(1), down, [], 0)];
    var purse := Purse(0, 0, 0, map[], map[]);
    TwoSold(role, purse, ps);
    BuyPage(ps, role, purse);
    var end := Release(OnePage(ps), Newcomer(role, purse), Normal, Bulk(1, All(ps))).value.0;
    PageOwned(ps, end);
    TwoStuck(role, ps, end.stats);
  }

  lemma {:induction false} TwoSold(role: int, purse: Purse, ps: seq<Panel>)
    requires |ps| == 2 && 0 < ps[0].value <= I32_MAX && 0 <= ps[0].value + ps[1].value <= I32_MAX
    requires forall i | 0 <= i < 2 :: ps[i].panelType == 1 && ps[i].status == Some(1) && ps[i].costs == [] && ps[i].cole == 0
    ensures var r := BuyAll(Newcomer(role, purse), ps);
            r.Ok? && r.value.purse == purse && r.value.stats == map[Own(1, 1) := ps[0].value + ps[1].value]
    ensures AllBought(ps, role)
  {
    var st := Newcomer(role, purse);
    var one := BuyOne(st, ps[0]).value;
    assert one == st.(stats := map[Own(1, 1) := ps[0].value]);
    var two := BuyOne(one, ps[1]).value;
    assert two.stats == map[Own(1, 1) := ps[0].value + ps[1].value];
    assert BuyAll(one, ps[1..]) == Ok(two) by { assert ps[1..][0] == ps[1] && BuyAll(two, ps[1..][1..]) == Ok(two); }
  }

  lemma {:induction false} TwoStuck(role: int, ps: seq<Panel>, s: Stats)
    requires |ps| == 2 && ps[1].value < 0 && s == map[Own(1, 1) := ps[0].value + ps[1].value]
    requires forall i | 0 <= i < 2 :: ps[i].panelType == 1 && ps[i].status == Some(1)
    ensures !Undoable(s, role, ps)
  {
    assert KeyOf(role, ps[0]) == Some(Own(1, 1));
    assert ps[..0 + 1] == [ps[0]];
    assert Sum(ps[..0 + 1], Gain(role, Own(1, 1))) == ps[0].value + Sum([], Gain(role, Own(1, 1)));
    assert Get(s, KeyOf(role, ps[0]).value) < Sum(ps[..0 + 1], Gain(role, KeyOf(role, ps[0]).value));
  }

  /**
   * A panel paid in paid gems or in pieces of a character is sold to whoever has them, and cannot be given back: from
   * pristine boards, whatever the price within 32 bits.
   */
  lemma {:induction false} UnreturnableRefusesReset(role: int, kind: int, id: int, price: int)
    requires kind in {2, 8} && 0 < price <= I32_MAX
    ensures var ps := [Panel(1, Some(1), 1, [Cost(kind, id, price)], 0)];
            var rules, st := OnePage(ps), Newcomer(role, Purse(0, 0, price, map[], map[id := price]));
            var sold := Release(rules, st, Normal, Bulk(1, All(ps)));
            && GoodRules(rules) && Playable(rules, st.ch) && sold.Ok? && Playable(rules, sold.value.0.ch)
            && Pay(sold.value.0.purse, Fee(rules, sold.value.0.ch)).Ok? && Reset(rules, sold.value.0, false).Err?
  {
    var panel := Panel(1, Some(1), 1, [Cost(kind, id, price)], 0);
    var purse := Purse(0, 0, price, map[], map[id := price]);
    OneSold(role, purse, panel);
    BuyPage([panel], role, purse);
    var end := Release(OnePage([panel]), Newcomer(role, purse), Normal, Bulk(1, All([panel]))).value.0;
    PageOwned([panel], end);
    OneDue(panel);
    assert panel.costs[0].quantity > 0 && !Returnable([panel][0]);
  }

  lemma {:induction false} OneSold(role: int, purse: Purse, panel: Panel)
    requires panel.panelType == 1 && panel.status == Some(1) && panel.value == 1 && |panel.costs| == 1 && panel.cole == 0
    requires panel.costs[0].kind in {2, 8} && Pay(purse, panel.costs[0]).Ok? && panel.costs[0].quantity > 0
    ensures var r := BuyAll(Newcomer(role, purse), [panel]);
            r.Ok? && r.value.purse.items == purse.items && r.value.purse.cole == purse.cole && r.value.purse.free <= purse.free
    ensures AllBought([panel], role)
  {
    var st := Newcomer(role, purse);
    var cs := panel.costs;
    var paid := Pay(purse, cs[0]).value;
    assert cs[1..] == [] && PayAll(paid, cs[1..]) == Ok(paid) && PayAll(purse, cs) == Ok(paid);
    assert Pay(paid, Cost(3, 1, 0)) == Ok(paid);
    var next := BuyOne(st, panel).value;
    assert BuyAll(next, [panel][1..]) == Ok(next);
  }

  lemma {:induction false} OneDue(panel: Panel)
    requires |panel.costs| == 1 && panel.cole == 0 && panel.costs[0].kind in {2, 8} && panel.costs[0].quantity <= I32_MAX
    ensures AllFit(RefundAll([((3, 1), 0)], [panel]))
  {
    var c, coins := panel.costs[0], [((3, 1), 0)];
    assert panel.costs[1..] == [] && AddRefund(coins, (3, 1), 0) == coins;
    assert RefundCosts(coins, panel.costs) == AddRefund(coins, (c.kind, c.id), c.quantity);
    assert RefundAll(coins, [panel]) == AddRefund(coins, (c.kind, c.id), c.quantity);
  }

  // ----- a refund that is lost -----------------------------------------------------------------

  function CoinPanel(price: int): Panel {
    Panel(1, Some(1), 1, [], price)
  }

  /** Two panels of the same price in coins, bought one after the other, the coins for the second earned in between. */
  function TwoPurchases(price: int): seq<Event>
    requires price >= 0
  {
    [Buy(Normal, Bulk(1, {0})), Elsewhere(Purse(price, 0, 0, map[], map[]), map[Own(1, 1) := 1], 0), Buy(Normal, Bulk(1, {1}))]
  }

  /**
   * A reset can be granted and pay back nothing. Two panels whose prices fit 32 bits one by one but not together make a
   * sum that wraps below zero, and such an entry is left out of the refund: from pristine boards, at any such price.
   */
  lemma {:induction false} WrappedRefundIsLost(role: int, price: int)
    requires price <= I32_MAX < 2 * price
    ensures var rules, st := OnePage([CoinPanel(price), CoinPanel(price)]), Newcomer(role, Purse(price, 0, 0, map[], map[]));
            && GoodRules(rules) && Playable(rules, st.ch) && Run(rules, st, TwoPurchases(price)).Some?
            && var end := Run(rules, st, TwoPurchases(price)).value;
               && Playable(rules, end.ch) && BooksOf(rules, st, Books(0, 0), TwoPurchases(price), Cole, Own(1, 1)).spent == 2 * price
               && Reset(rules, end, false).Ok? && Amount(Reset(rules, end, false).value.purse, Cole) == Amount(end.purse, Cole)
  {
    hide Run, BooksOf, Reset, Amount, OnePage, BothOwned, Playable;
    BothBought(role, price);
    BothSpent(role, price);
    BothReset(role, price);
  }

  lemma {:induction false} BothSpent(role: int, price: int)
    requires 0 <= price
    ensures var rules, st := OnePage([CoinPanel(price), CoinPanel(price)]), Newcomer(role, Purse(price, 0, 0, map[], map[]));
            && GoodRules(rules) && Playable(rules, st.ch)
            && BooksOf(rules, st, Books(0, 0), TwoPurchases(price), Cole, Own(1, 1)).spent == 2 * price
  {
    hide Run, BooksOf, OwnedBoth, Pick, All, Undoable;
    var ps, k := [CoinPanel(price), CoinPanel(price)], Own(1, 1);
    var rules, st, end := OnePage(ps), Newcomer(role, Purse(price, 0, 0, map[], map[])), BothOwned(role);
    BothBought(role, price);
    NewcomerOwns(rules, role, st.purse);
    EmptySums(Cole, k, role);
    RunBalanced(rules, st, Books(0, 0), TwoPurchases(price), Cole, k);
    AllOfTwo(ps);
    BothUndoable(role, price);
    PageOwned(ps, end);
  }

  lemma {:induction false} BothReset(role: int, price: int)
    requires price <= I32_MAX < 2 * price
    ensures var rules, end := OnePage([CoinPanel(price), CoinPanel(price)]), BothOwned(role);
            && GoodRules(rules) && Playable(rules, end.ch) && Reset(rules, end, false).Ok?
            && Amount(Reset(rules, end, false).value.purse, Cole) == Amount(end.purse, Cole)
  {
    hide Reset, Amount, OwnedBoth, Bill, Undoable, Fits, CreditsOk, EntriesFit, Pick, RefundAll, Payout, All, Bought;
    var ps := [CoinPanel(price), CoinPanel(price)];
    var rules, end := OnePage(ps), BothOwned(role);
    AllOfTwo(ps);
    BothUndoable(role, price);
    PageOwned(ps, end);
    TwoDue(end.purse, price);
    ResetAccounts(rules, end, false, Cole, Own(1, 1));
  }

  function BothOwned(role: int): State {
    State(Purse(0, 0, 0, map[], map[]), map[Own(1, 1) := 2], Character(role, 0, Progress(1, {0, 1}), Progress(1, {}), Progress(1, {})))
  }

  lemma {:induction false} NewcomerOwns(rules: Rules, role: int, purse: Purse)
    requires |rules.normal| >= 1 && |rules.ex| >= 1
    ensures var ch := Newcomer(role, purse).ch; Playable(rules, ch) && OwnedBoth(rules, ch) == []
  {
    NothingOwned(rules.normal);
    NothingOwned(rules.ex);
  }

  lemma {:induction false} AllOfTwo(page: Page)
    requires |page| == 2
    ensures All(page) == {0, 1}
  {
    assert forall i :: i in All(page) <==> 0 <= i < 2;
  }

  /** One panel of the pair at the price of all coins at hand. */
  lemma {:induction false} BuyCoinPanel(price: int, st: State, i: nat)
    requires 0 <= price && i < 2 && st.ch.normal.page == 1 && st.ch.normal.bits <= {0, 1} - {i}
    requires st.purse.cole == price && Get(st.stats, Own(1, 1)) in {0, 1}
    ensures var ps := [CoinPanel(price), CoinPanel(price)];
            Release(OnePage(ps), st, Normal, Bulk(1, {i}))
            == Ok((State(st.purse.(cole := 0), st.stats[Own(1, 1) := Get(st.stats, Own(1, 1)) + 1],
                         st.ch.(normal := Progress(1, st.ch.normal.bits + {i}))), 1))
  {
    hide All, ToBuy;
    var ps, pr := [CoinPanel(price), CoinPanel(price)], st.ch.normal;
    var board := OnePage(ps).normal;
    var bits := pr.bits + {i};
    AllOfTwo(ps);
    ToBuyLast(board, pr, 1, bits);
    assert Wanted(board, pr, 1, bits, 1) == {i};
    PickOne(ps, i);
    var p := ps[i];
    assert p == CoinPanel(price) && PayAll(st.purse, p.costs) == Ok(st.purse);
    assert Pay(st.purse, Cost(3, 1, price)) == Ok(st.purse.(cole := 0));
    var next := BuyOne(st, p).value;
    assert BuyAll(next, [p][1..]) == Ok(next);
    assert i in bits && i !in pr.bits;
  }

  lemma {:induction false} PickOne(page: Page, i: nat)
    requires |page| == 2 && i < 2
    ensures Pick(page, {i}, 0) == [page[i]]
  {
    assert Pick(page, {i}, 2) == [];
    assert Pick(page, {i}, 1) == if i == 1 then [page[1]] else [];
  }

  lemma {:induction false} BothBought(role: int, price: int)
    requires 0 <= price
    ensures var rules, st := OnePage([CoinPanel(price), CoinPanel(price)]), Newcomer(role, Purse(price, 0, 0, map[], map[]));
            && GoodRules(rules) && Playable(rules, st.ch) && Run(rules, st, TwoPurchases(price)) == Some(BothOwned(role))
  {
    hide Release, All, Pick;
    var rules, st := OnePage([CoinPanel(price), CoinPanel(price)]), Newcomer(role, Purse(price, 0, 0, map[], map[]));
    var evs, end := TwoPurchases(price), BothOwned(role);
    BuyCoinPanel(price, st, 0);
    var one := After(rules, st, evs[0]).value;
    assert {} + {0} == {0};
    var two := After(rules, one, evs[1]).value;
    BuyCoinPanel(price, two, 1);
    assert {0} + {1} == {0, 1} && two.stats[Own(1, 1) := 2] == end.stats;
    assert After(rules, two, evs[2]) == Some(end);
    RunThree(rules, st, evs, one, two, end);
  }

  lemma {:induction false} RunThree(rules: Rules, st: State, evs: seq<Event>, one: State, two: State, end: State)
    requires GoodRules(rules) && Playable(rules, st.ch) && Playable(rules, one.ch) && Playable(rules, two.ch) && Playable(rules, end.ch)
    requires |evs| == 3 && After(rules, st, evs[0]) == Some(one) && After(rules, one, evs[1]) == Some(two) && After(rules, two, evs[2]) == Some(end)
    ensures Run(rules, st, evs) == Some(end)
  {
    hide After, Playable, GoodRules;
    assert evs[1..][0] == evs[1] && evs[1..][1..] == evs[2..] && evs[2..][0] == evs[2] && evs[2..][1..] == [];
    assert Run(rules, end, []) == Some(end);
    assert Run(rules, two, evs[2..]) == Some(end);
    assert Run(rules, one, evs[1..]) == Some(end);
  }

  lemma {:induction false} BothUndoable(role: int, price: int)
    requires 0 <= price
    ensures var ps := [CoinPanel(price), CoinPanel(price)];
            Undoable(BothOwned(role).stats, role, ps) && AllBought(ps, role)
            && Sum(ps, Price(Cole)) == 2 * price && Sum(ps, Gain(role, Own(1, 1))) == 2
  {
    var ps, k := [CoinPanel(price), CoinPanel(price)], Own(1, 1);
    SumOfTwo(ps, Gain(role, k));
    SumOfTwo(ps, Price(Cole));
  }

  lemma {:induction false} SumOfTwo(ps: seq<Panel>, f: Panel -> int)
    requires |ps| == 2
    ensures Sum(ps[..1], f) == f(ps[0]) && Sum(ps[..2], f) == Sum(ps, f) == f(ps[0]) + f(ps[1])
  {
    assert ps[..2] == ps && ps[..1] == [ps[0]] && ps[1..] == [ps[1]];
    assert Sum([], f) == 0;
    assert Sum([ps[0]], f) == f(ps[0]) + Sum([ps[0]][1..], f);
    assert Sum([ps[1]], f) == f(ps[1]) + Sum([ps[1]][1..], f);
  }

  /** What is due for the pair does not fit, and nothing of it is handed out. */
  lemma {:induction false} TwoDue(purse: Purse, price: int)
    requires price <= I32_MAX < 2 * price && SoundPurse(purse)
    ensures var payout := Payout(RefundAll([((3, 1), 0)], [CoinPanel(price), CoinPanel(price)]));
            CreditsOk(payout) && Fits(purse, payout) && Total(payout, Cole) == 0
  {
    var ps, coins := [CoinPanel(price), CoinPanel(price)], [((3, 1), 0)];
    assert AddRefund(coins, (3, 1), price) == [((3, 1), price)];
    assert AddRefund([((3, 1), price)], (3, 1), price) == [((3, 1), 2 * price)];
    assert ps[1..] == [CoinPanel(price)] && ps[1..][1..] == [];
    var bill := [((3, 1), 2 * price)];
    assert RefundAll(bill, []) == bill;
    assert RefundAll([((3, 1), price)], ps[1..]) == bill;
    assert RefundAll(coins, ps) == bill;
    assert Wrap32(2 * price) == 2 * price - 0x1_0000_0000;
    assert Payout(bill) == [((3, 1), 0)] by { assert bill[1..] == []; }
    NothingHeld(purse, [((3, 1), 0)]);
  }

  lemma {:induction false} NothingHeld(purse: Purse, rs: Refund)
    requires rs == [((3, 1), 0)] && SoundPurse(purse)
    ensures Fits(purse, rs) && Total(rs, Cole) == 0
  {
    assert rs[1..] == [];
    forall r ensures Total(rs, r) == 0 { assert Total(rs[1..], r) == 0; }
  }

  // ----- what an order may do ------------------------------------------------------------------

  /**
   * A granted order moves forward: to a later page within the limit or to more bits on the same one, never beyond the
   * page. Releasing a page is free and needs the current page full; the EX board is entered through its first panel;
   * and the first step on the neo board needs both other boards complete.
   */
  lemma {:induction false} ReleaseMovesForward(rules: Rules, st: State, w: Which, order: Order)
    requires BoardOf(rules, w).Some? && OnBoard(BoardOf(rules, w).value, ProgressOf(st.ch, w))
    requires Release(rules, st, w, order).Ok?
    ensures var (next, bought) := Release(rules, st, w, order).value;
            var pr, to, board := ProgressOf(st.ch, w), ProgressOf(next.ch, w), BoardOf(rules, w).value;
            && OnBoard(board, to) && Limit(rules, st.ch, w).Some? && to.page <= Limit(rules, st.ch, w).value
            && (pr.page < to.page || (pr.page == to.page && pr.bits < to.bits))
            && (order.PageRelease? ==> bought == 0 && next == st.(ch := next.ch) && pr.bits == All(board[pr.page - 1])
                                       && to == Progress(pr.page + 1, {}))
            && (w.Ex? && to.bits != {} ==> 0 in to.bits)
            && (w.Neo? && pr.page == 1 && 0 !in pr.bits ==>
                  rules.neoReady && Complete(rules.normal, st.ch.normal) && Complete(rules.ex, st.ch.ex))
            && forall v | v != w :: ProgressOf(next.ch, v) == ProgressOf(st.ch, v)
  {
    hide BuyAll, ToBuy, All, Complete;
    var to := Destination(rules, st.ch, w, order).value;
    var pr, board := ProgressOf(st.ch, w), BoardOf(rules, w).value;
    var ps := ToBuy(board, pr, to.page, to.bits, pr.page);
    BuyKeepsCharacter(st, ps);
    if order.PageRelease? {
      assert pr == Progress(pr.page, All(board[pr.page - 1]));
      ToBuyHere(board, pr, to.page, {});
      BuyNothing(st);
    }
  }

  // ----- in bulk or page by page ---------------------------------------------------------------

  lemma {:induction false} BuyInTwo(st: State, a: seq<Panel>, b: seq<Panel>)
    ensures BuyAll(st, a + b) == if BuyAll(st, a).Ok? then BuyAll(BuyAll(st, a).value, b) else BuyAll(st, a)
    decreases |a|
  {
    hide BuyOne;
    if a == [] {
      assert a + b == b;
    } else {
      assert (a + b)[1..] == a[1..] + b;
      if BuyOne(st, a[0]).Ok? { BuyInTwo(BuyOne(st, a[0]).value, a[1..], b); }
    }
  }

  lemma {:induction false} BuyIgnoresProgress(st: State, ch: Character, ps: seq<Panel>)
    requires st.ch.role == ch.role
    ensures match BuyAll(st, ps)
            case Err(e) => BuyAll(st.(ch := ch), ps) == Err(e)
            case Ok(next) => BuyAll(st.(ch := ch), ps) == Ok(next.(ch := ch))
    decreases |ps|
  {
    hide PayAll, Pay, Effect;
    if ps != [] && BuyOne(st, ps[0]).Ok? {
      assert BuyOne(st.(ch := ch), ps[0]) == Ok(BuyOne(st, ps[0]).value.(ch := ch));
      BuyIgnoresProgress(BuyOne(st, ps[0]).value, ch, ps[1..]);
    }
  }

  /** From the next page on, buying from a full current page or from the next page with no bits is the same. */
  lemma {:induction false} ToBuyOnward(board: Board, pr: Progress, target: int, bits: set<int>, n: int)
    requires 1 <= pr.page < n && target <= |board|
    ensures ToBuy(board, pr, target, bits, n) == ToBuy(board, Progress(pr.page + 1, {}), target, bits, n)
    decreases target + 1 - n
  {
    hide Pick, All;
    if n <= target {
      ToBuyOnward(board, pr, target, bits, n + 1);
      assert Wanted(board, pr, target, bits, n) == Wanted(board, Progress(pr.page + 1, {}), target, bits, n);
    }
  }

  /** The last page of an order. */
  lemma {:induction false} ToBuyLast(board: Board, pr: Progress, target: int, bits: set<int>)
    requires 1 <= target <= |board|
    ensures ToBuy(board, pr, target, bits, target) == Pick(board[target - 1], Wanted(board, pr, target, bits, target), 0)
    ensures Wanted(board, pr, target, bits, target) == {} ==> ToBuy(board, pr, target, bits, target) == []
  {
    hide Pick, Wanted;
    var here := Pick(board[target - 1], Wanted(board, pr, target, bits, target), 0);
    assert ToBuy(board, pr, target, bits, target + 1) == [];
    assert here + [] == here;
    PickNothing(board[target - 1], 0);
  }

  /** What is bought on the current page and what is bought beyond it. */
  lemma {:induction false} ToBuyHere(board: Board, pr: Progress, target: int, bits: set<int>)
    requires OnBoard(board, pr) && pr.page < target <= |board|
    ensures ToBuy(board, pr, target, bits, pr.page)
            == ToBuy(board, pr, pr.page, All(board[pr.page - 1]), pr.page)
               + ToBuy(board, Progress(pr.page + 1, {}), target, bits, pr.page + 1)
    ensures ToBuy(board, Progress(pr.page, All(board[pr.page - 1])), pr.page + 1, {}, pr.page) == []
    ensures pr.page + 1 == target ==> ToBuy(board, Progress(pr.page + 1, {}), target, {}, pr.page + 1) == []
    ensures pr.bits == All(board[pr.page - 1]) ==> ToBuy(board, pr, pr.page, All(board[pr.page - 1]), pr.page) == []
  {
    hide Pick, All, ToBuy;
    var page, n := board[pr.page - 1], pr.page;
    var full, turned := Progress(n, All(page)), Progress(n + 1, {});
    ToBuyOnward(board, pr, target, bits, n + 1);
    ToBuyLast(board, pr, n, All(page));
    ToBuyLast(board, turned, n + 1, {});
    ToBuyLast(board, full, n + 1, {});
    assert Wanted(board, pr, target, bits, n) == Wanted(board, pr, n, All(page), n);
    ToBuyNext(board, pr, target, bits, n);
    ToBuyNext(board, full, n + 1, {}, n);
    assert Wanted(board, full, n + 1, {}, n) == {} by { PickNothing(page, 0); }
    assert Wanted(board, full, n + 1, {}, n + 1) == {} && Wanted(board, turned, n + 1, {}, n + 1) == {};
    PickNothing(page, 0);
  }

  lemma {:induction false} ToBuyNext(board: Board, pr: Progress, target: int, bits: set<int>, n: int)
    requires 1 <= n <= target <= |board|
    ensures ToBuy(board, pr, target, bits, n)
            == Pick(board[n - 1], Wanted(board, pr, target, bits, n), 0) + ToBuy(board, pr, target, bits, n + 1)
  {
  }

  /** Buys what is missing on the current page. */
  function Fill(rules: Rules, st: State, w: Which): Result<(State, nat), Refusal>
    requires BoardOf(rules, w).Some? && OnBoard(BoardOf(rules, w).value, ProgressOf(st.ch, w))
  {
    var pr := ProgressOf(st.ch, w);
    var all := All(BoardOf(rules, w).value[pr.page - 1]);
    if pr.bits == all then Ok((st, 0)) else Release(rules, st, w, Bulk(pr.page, all))
  }

  /** The target reached one page at a time: fill the page, release the next one, and buy the last panels there. */
  function PageByPage(rules: Rules, st: State, w: Which, target: int, bits: set<int>): Result<(State, nat), Refusal>
    requires BoardOf(rules, w).Some? && OnBoard(BoardOf(rules, w).value, ProgressOf(st.ch, w))
    decreases target - ProgressOf(st.ch, w).page
  {
    var pr := ProgressOf(st.ch, w);
    if pr == Progress(target, bits) then Ok((st, 0))
    else if pr.page >= target then Release(rules, st, w, Bulk(target, bits))
    else
      match Fill(rules, st, w)
      case Err(e) => Err(e)
      case Ok(filled) =>
        FillStays(rules, st, w);
        match Release(rules, filled.0, w, PageRelease)
        case Err(e) => Err(e)
        case Ok(turned) =>
          ReleaseMovesForward(rules, filled.0, w, PageRelease);
          match PageByPage(rules, turned.0, w, target, bits)
          case Err(e) => Err(e)
          case Ok(rest) => Ok((rest.0, filled.1 + turned.1 + rest.1))
  }

  lemma {:induction false} FillStays(rules: Rules, st: State, w: Which)
    requires BoardOf(rules, w).Some? && OnBoard(BoardOf(rules, w).value, ProgressOf(st.ch, w)) && Fill(rules, st, w).Ok?
    ensures var pr, filled := ProgressOf(st.ch, w), Fill(rules, st, w).value.0;
            ProgressOf(filled.ch, w) == Progress(pr.page, All(BoardOf(rules, w).value[pr.page - 1]))
            && OnBoard(BoardOf(rules, w).value, ProgressOf(filled.ch, w))
  {
    hide BuyAll, ToBuy, Limit, All;
    var pr := ProgressOf(st.ch, w);
    var all := All(BoardOf(rules, w).value[pr.page - 1]);
    assert pr.bits + all == all;
  }

  /** Filling the page costs exactly the panels missing on it. */
  lemma {:induction false} FillBuys(rules: Rules, st: State, w: Which)
    requires BoardOf(rules, w).Some? && OnBoard(BoardOf(rules, w).value, ProgressOf(st.ch, w))
    requires Limit(rules, st.ch, w).Some? && ProgressOf(st.ch, w).page <= Limit(rules, st.ch, w).value
    ensures var board, pr := BoardOf(rules, w).value, ProgressOf(st.ch, w);
            var all := All(board[pr.page - 1]);
            var here := ToBuy(board, pr, pr.page, all, pr.page);
            Fill(rules, st, w) == match BuyAll(st, here)
                                  case Err(e) => Err(e)
                                  case Ok(next) => Ok((next.(ch := SetProgress(st.ch, w, Progress(pr.page, all))), |here|))
  {
    hide BuyAll, ToBuy, Limit, All;
    var board, pr := BoardOf(rules, w).value, ProgressOf(st.ch, w);
    var all := All(board[pr.page - 1]);
    var here := ToBuy(board, pr, pr.page, all, pr.page);
    BuyKeepsCharacter(st, here);
    assert pr.bits + all == all;
    if pr.bits == all {
      ToBuyLast(board, pr, pr.page, all);
      BuyNothing(st);
      assert SetProgress(st.ch, w, pr) == st.ch;
    } else {
      assert Destination(rules, st.ch, w, Bulk(pr.page, all)) == Some(Progress(pr.page, all));
    }
  }

  /** From a full page the next one is free, and open within the limit. */
  lemma {:induction false} TurnIsFree(rules: Rules, st: State, w: Which)
    requires BoardOf(rules, w).Some? && OnBoard(BoardOf(rules, w).value, ProgressOf(st.ch, w)) && Limit(rules, st.ch, w).Some?
    requires ProgressOf(st.ch, w).bits == All(BoardOf(rules, w).value[ProgressOf(st.ch, w).page - 1])
    ensures var next := ProgressOf(st.ch, w).page + 1;
            Release(rules, st, w, PageRelease)
            == if next <= Limit(rules, st.ch, w).value then Ok((st.(ch := SetProgress(st.ch, w, Progress(next, {}))), 0))
               else Err(InvalidRequest)
  {
    hide BuyAll, ToBuy, All, Limit;
    var board, pr := BoardOf(rules, w).value, ProgressOf(st.ch, w);
    var n := pr.page;
    if n + 1 <= Limit(rules, st.ch, w).value {
      LimitOnBoard(rules, st.ch, w);
      ToBuyHere(board, pr, n + 1, {});
      BuyNothing(st);
    }
  }

  lemma {:induction false} LimitOnBoard(rules: Rules, ch: Character, w: Which)
    requires BoardOf(rules, w).Some? && Limit(rules, ch, w).Some?
    ensures Limit(rules, ch, w).value <= |BoardOf(rules, w).value|
  {
  }

  /** Filling a page and turning it change neither the limit nor where an order to a later page leads. */
  lemma {:induction false} SameDestination(rules: Rules, ch: Character, w: Which, target: int, bits: set<int>)
    requires BoardOf(rules, w).Some? && OnBoard(BoardOf(rules, w).value, ProgressOf(ch, w)) && Limit(rules, ch, w).Some?
    requires ProgressOf(ch, w).page < target
    ensures var pr := ProgressOf(ch, w);
            var filled := SetProgress(ch, w, Progress(pr.page, All(BoardOf(rules, w).value[pr.page - 1])));
            var turned := SetProgress(ch, w, Progress(pr.page + 1, {}));
            && Limit(rules, filled, w) == Limit(rules, ch, w)
            && (target == pr.page + 1 && bits == {} ==>
                  Destination(rules, ch, w, Bulk(target, bits))
                  == if pr.page + 1 <= Limit(rules, ch, w).value then Some(Progress(target, bits)) else None)
            && (!(target == pr.page + 1 && bits == {}) ==>
                  Destination(rules, turned, w, Bulk(target, bits)) == Destination(rules, ch, w, Bulk(target, bits)))
            && var to := Destination(rules, ch, w, Bulk(target, bits));
               (to.Some? ==> to == Some(Progress(target, bits)) && target <= Limit(rules, ch, w).value)
  {
    hide All, Complete;
    assert {} + bits == bits;
  }

  lemma {:induction false} Refused(rules: Rules, st: State, w: Which, order: Order)
    ensures Release(rules, st, w, order).Err? ==> Release(rules, st, w, order) == Err(InvalidRequest)
  {
    hide BuyAll, ToBuy, Destination;
    var to := Destination(rules, st.ch, w, order);
    if to.Some? {
      BuyRefused(st, ToBuy(BoardOf(rules, w).value, ProgressOf(st.ch, w), to.value.page, to.value.bits, ProgressOf(st.ch, w).page));
    }
  }

  lemma {:induction false} BuyRefused(st: State, ps: seq<Panel>)
    ensures BuyAll(st, ps).Err? ==> BuyAll(st, ps) == Err(InvalidRequest)
    decreases |ps|
  {
    if ps != [] {
      PayRefused(st.purse, ps[0].costs);
      if BuyOne(st, ps[0]).Ok? { BuyRefused(BuyOne(st, ps[0]).value, ps[1..]); }
    }
  }

  lemma {:induction false} PayRefused(p: Purse, cs: seq<Cost>)
    ensures PayAll(p, cs).Err? ==> PayAll(p, cs) == Err(InvalidRequest)
    decreases |cs|
  {
    if cs != [] && Pay(p, cs[0]).Ok? { PayRefused(Pay(p, cs[0]).value, cs[1..]); }
  }

  /** Where the page cannot be worked on, nothing is granted. */
  lemma {:induction false} Locked(rules: Rules, st: State, w: Which, order: Order)
    requires BoardOf(rules, w).Some? && OnBoard(BoardOf(rules, w).value, ProgressOf(st.ch, w))
    requires Limit(rules, st.ch, w).None? || ProgressOf(st.ch, w).page > Limit(rules, st.ch, w).value
    ensures Release(rules, st, w, order) == Err(InvalidRequest)
    ensures Fill(rules, st, w) == Ok((st, 0)) || Fill(rules, st, w) == Err(InvalidRequest)
  {
    hide Limit, All, BuyAll, ToBuy;
  }

  /** A granted order buys what is missing here and then what is missing beyond. */
  lemma {:induction false} OrderInTwo(rules: Rules, st: State, w: Which, target: int, bits: set<int>)
    requires BoardOf(rules, w).Some? && OnBoard(BoardOf(rules, w).value, ProgressOf(st.ch, w))
    requires ProgressOf(st.ch, w).page < target <= |BoardOf(rules, w).value|
    requires Destination(rules, st.ch, w, Bulk(target, bits)) == Some(Progress(target, bits))
    ensures var board, pr := BoardOf(rules, w).value, ProgressOf(st.ch, w);
            var here := ToBuy(board, pr, pr.page, All(board[pr.page - 1]), pr.page);
            var onward := ToBuy(board, Progress(pr.page + 1, {}), target, bits, pr.page + 1);
            Release(rules, st, w, Bulk(target, bits))
            == match BuyAll(st, here)
               case Err(e) => Err(e)
               case Ok(first) =>
                 match BuyAll(first, onward)
                 case Err(e) => Err(e)
                 case Ok(next) => Ok((next.(ch := SetProgress(st.ch, w, Progress(target, bits))), |here| + |onward|))
  {
    hide BuyAll, ToBuy, All, Destination;
    var board, pr := BoardOf(rules, w).value, ProgressOf(st.ch, w);
    var here := ToBuy(board, pr, pr.page, All(board[pr.page - 1]), pr.page);
    var onward := ToBuy(board, Progress(pr.page + 1, {}), target, bits, pr.page + 1);
    ToBuyHere(board, pr, target, bits);
    BuyInTwo(st, here, onward);
    BuyKeepsCharacter(st, here + onward);
  }

  /** The same order given from the next page on. */
  lemma {:induction false} LastLeg(rules: Rules, st: State, w: Which, target: int, bits: set<int>, first: State)
    requires BoardOf(rules, w).Some? && OnBoard(BoardOf(rules, w).value, ProgressOf(st.ch, w)) && first.ch == st.ch
    requires ProgressOf(st.ch, w).page < target <= |BoardOf(rules, w).value|
    requires Destination(rules, SetProgress(st.ch, w, Progress(ProgressOf(st.ch, w).page + 1, {})), w, Bulk(target, bits))
             == Some(Progress(target, bits))
    ensures var next := ProgressOf(st.ch, w).page + 1;
            var onward := ToBuy(BoardOf(rules, w).value, Progress(next, {}), target, bits, next);
            Release(rules, first.(ch := SetProgress(st.ch, w, Progress(next, {}))), w, Bulk(target, bits))
            == match BuyAll(first, onward)
               case Err(e) => Err(e)
               case Ok(end) => Ok((end.(ch := SetProgress(st.ch, w, Progress(target, bits))), |onward|))
  {
    hide BuyAll, ToBuy, Destination;
    var next := ProgressOf(st.ch, w).page + 1;
    var onward := ToBuy(BoardOf(rules, w).value, Progress(next, {}), target, bits, next);
    var turned := SetProgress(st.ch, w, Progress(next, {}));
    BuyIgnoresProgress(first, turned, onward);
    BuyKeepsCharacter(first, onward);
  }

  /**
   * One page of a bulk order, granted or refused: it has the outcome of filling the current page, releasing the next one,
   * and giving the same order from there, with the purchases adding up.
   */
  lemma {:induction false} BulkSplits(rules: Rules, st: State, w: Which, target: int, bits: set<int>)
    requires BoardOf(rules, w).Some? && OnBoard(BoardOf(rules, w).value, ProgressOf(st.ch, w))
    requires ProgressOf(st.ch, w).page < target
    ensures Release(rules, st, w, Bulk(target, bits))
            == match Fill(rules, st, w)
               case Err(e) => Err(e)
               case Ok(filled) =>
                 match Release(rules, filled.0, w, PageRelease)
                 case Err(e) => Err(e)
                 case Ok(turned) =>
                   if target == ProgressOf(st.ch, w).page + 1 && bits == {} then Ok((turned.0, filled.1 + turned.1))
                   else match Release(rules, turned.0, w, Bulk(target, bits))
                     case Err(e) => Err(e)
                     case Ok(rest) => Ok((rest.0, filled.1 + turned.1 + rest.1))
  {
    hide Release, Fill, ToBuy, BuyAll, Limit, All, Destination;
    var board, pr := BoardOf(rules, w).value, ProgressOf(st.ch, w);
    var all := All(board[pr.page - 1]);
    Refused(rules, st, w, Bulk(target, bits));
    if Limit(rules, st.ch, w).None? || pr.page > Limit(rules, st.ch, w).value {
      Locked(rules, st, w, Bulk(target, bits));
      Locked(rules, st, w, PageRelease);
    } else {
      var here := ToBuy(board, pr, pr.page, all, pr.page);
      FillBuys(rules, st, w);
      BuyRefused(st, here);
      SameDestination(rules, st.ch, w, target, bits);
      LimitOnBoard(rules, st.ch, w);
      if BuyAll(st, here).Err? {
        Unpayable(rules, st, w, target, bits);
      } else {
        var first := BuyAll(st, here).value;
        BuyKeepsCharacter(st, here);
        FillStays(rules, st, w);
        TurnIsFree(rules, Fill(rules, st, w).value.0, w);
        TurnedOn(rules, st, w, target, bits, first);
      }
    }
  }

  lemma {:induction false} Unpayable(rules: Rules, st: State, w: Which, target: int, bits: set<int>)
    requires BoardOf(rules, w).Some? && OnBoard(BoardOf(rules, w).value, ProgressOf(st.ch, w)) && Limit(rules, st.ch, w).Some?
    requires ProgressOf(st.ch, w).page < target
    requires var board, pr := BoardOf(rules, w).value, ProgressOf(st.ch, w);
             BuyAll(st, ToBuy(board, pr, pr.page, All(board[pr.page - 1]), pr.page)).Err?
    ensures Release(rules, st, w, Bulk(target, bits)) == Err(InvalidRequest)
  {
    hide Release, ToBuy, BuyAll, Limit, All, Destination;
    Refused(rules, st, w, Bulk(target, bits));
    SameDestination(rules, st.ch, w, target, bits);
    LimitOnBoard(rules, st.ch, w);
    if Destination(rules, st.ch, w, Bulk(target, bits)).Some? {
      OrderInTwo(rules, st, w, target, bits);
    } else {
      Nowhere(rules, st, w, Bulk(target, bits));
    }
  }

  lemma {:induction false} Nowhere(rules: Rules, st: State, w: Which, order: Order)
    requires Destination(rules, st.ch, w, order).None?
    ensures Release(rules, st, w, order) == Err(InvalidRequest)
  {
  }

  lemma {:induction false} TurnedOn(rules: Rules, st: State, w: Which, target: int, bits: set<int>, first: State)
    requires BoardOf(rules, w).Some? && OnBoard(BoardOf(rules, w).value, ProgressOf(st.ch, w)) && Limit(rules, st.ch, w).Some?
    requires ProgressOf(st.ch, w).page < target && first.ch == st.ch
    requires var board, pr := BoardOf(rules, w).value, ProgressOf(st.ch, w);
             BuyAll(st, ToBuy(board, pr, pr.page, All(board[pr.page - 1]), pr.page)) == Ok(first)
    ensures var board, pr := BoardOf(rules, w).value, ProgressOf(st.ch, w);
            var here := ToBuy(board, pr, pr.page, All(board[pr.page - 1]), pr.page);
            var turned := first.(ch := SetProgress(st.ch, w, Progress(pr.page + 1, {})));
            var bulk := Release(rules, st, w, Bulk(target, bits));
            if target == pr.page + 1 && bits == {} then
              bulk == if pr.page + 1 <= Limit(rules, st.ch, w).value then Ok((turned, |here|)) else Err(InvalidRequest)
            else
              (bulk.Ok? ==> pr.page + 1 <= Limit(rules, st.ch, w).value)
              && bulk == match Release(rules, turned, w, Bulk(target, bits))
                         case Err(e) => Err(e)
                         case Ok(rest) => Ok((rest.0, |here| + rest.1))
  {
    hide Release, ToBuy, BuyAll, Limit, All, Destination;
    var board, pr := BoardOf(rules, w).value, ProgressOf(st.ch, w);
    var turned := SetProgress(st.ch, w, Progress(pr.page + 1, {}));
    SameDestination(rules, st.ch, w, target, bits);
    LimitOnBoard(rules, st.ch, w);
    if Destination(rules, st.ch, w, Bulk(target, bits)).None? {
      Nowhere(rules, st, w, Bulk(target, bits));
      if !(target == pr.page + 1 && bits == {}) { Nowhere(rules, first.(ch := turned), w, Bulk(target, bits)); }
    } else {
      OrderInTwo(rules, st, w, target, bits);
      if target == pr.page + 1 && bits == {} {
        ToBuyLast(board, Progress(pr.page + 1, {}), target, {});
        assert Wanted(board, Progress(pr.page + 1, {}), target, {}, target) == {};
        BuyNothing(first);
      } else {
        LastLeg(rules, st, w, target, bits, first);
      }
    }
  }

  /** A bulk order to a later page is the whole chain of single steps, granted or refused alike. */
  lemma {:induction false} BulkIsPageByPage(rules: Rules, st: State, w: Which, target: int, bits: set<int>)
    requires BoardOf(rules, w).Some? && OnBoard(BoardOf(rules, w).value, ProgressOf(st.ch, w))
    requires ProgressOf(st.ch, w).page < target
    ensures Release(rules, st, w, Bulk(target, bits)) == PageByPage(rules, st, w, target, bits)
    decreases target - ProgressOf(st.ch, w).page
  {
    hide Release, Fill, All;
    BulkSplits(rules, st, w, target, bits);
    if Fill(rules, st, w).Ok? {
      var filled := Fill(rules, st, w).value;
      FillStays(rules, st, w);
      if Release(rules, filled.0, w, PageRelease).Ok? {
        var turned := Release(rules, filled.0, w, PageRelease).value;
        ReleaseMovesForward(rules, filled.0, w, PageRelease);
        var next := ProgressOf(turned.0.ch, w);
        assert next == Progress(ProgressOf(st.ch, w).page + 1, {});
        if next.page < target { BulkIsPageByPage(rules, turned.0, w, target, bits); }
      }
    }
  }

  lemma {:induction false} BuyNothing(st: State)
    ensures BuyAll(st, []) == Ok(st)
  {
  }

  // ----- experience ----------------------------------------------------------------------------

  function Quantity(rs: Refund, key: (int, int)): int
    decreases |rs|
  {
    if rs == [] then 0 else if rs[0].0 == key then rs[0].1 else Quantity(rs[1..], key)
  }

  lemma {:induction false} SetRefundQuantity(rs: Refund, key: (int, int), quantity: int, k: (int, int))
    ensures Quantity(SetRefund(rs, key, quantity), k) == if k == key then quantity else Quantity(rs, k)
    decreases |rs|
  {
    if rs != [] && !KeyBefore(key, rs[0].0) && rs[0].0 != key {
      SetRefundQuantity(rs[1..], key, quantity, k);
    }
  }

  /** The experience that the refunded items are worth. */
  function Worth(rs: Refund, rows: seq<(int, int)>): int
    decreases |rows|
  {
    if rows == [] then 0 else Quantity(rs, (5, rows[0].0)) * rows[0].1 + Worth(rs, rows[1..])
  }

  predicate DistinctItems(rows: seq<(int, int)>) {
    forall i, j | 0 <= i < j < |rows| :: rows[i].0 != rows[j].0
  }

  lemma {:induction false} OtherItems(rs: Refund, exp: nat, rows: seq<(int, int)>, item: int)
    requires (forall i | 0 <= i < |rows| :: rows[i].1 > 0 && rows[i].0 != item)
    ensures Quantity(ExpItems(rs, exp, rows).0, (5, item)) == Quantity(rs, (5, item))
    decreases |rows|
  {
    hide SetRefund, Quantity;
    if rows != [] {
      var quantity := exp / rows[0].1;
      SetRefundQuantity(rs, (5, rows[0].0), quantity, (5, item));
      OtherItems(if quantity > 0 then SetRefund(rs, (5, rows[0].0), quantity) else rs, exp % rows[0].1, rows[1..], item);
    }
  }

  /** Paying experience back in items loses only a remainder smaller than the smallest item. */
  lemma {:induction false} ExpItemsExact(rs: Refund, exp: nat, rows: seq<(int, int)>)
    requires (forall i | 0 <= i < |rows| :: rows[i].1 > 0) && DistinctItems(rows)
    requires forall i | 0 <= i < |rows| :: Quantity(rs, (5, rows[i].0)) == 0
    ensures var r := ExpItems(rs, exp, rows);
            Worth(r.0, rows) + r.1 == exp && forall i | 0 <= i < |rows| :: r.1 < rows[i].1
    decreases |rows|
  {
    hide SetRefund, Quantity;
    if rows != [] {
      var value := rows[0].1;
      Division(exp, value);
      var quantity, rest := exp / value, exp % value;
      var next := if quantity > 0 then SetRefund(rs, (5, rows[0].0), quantity) else rs;
      var tail := rows[1..];
      forall i | 0 <= i < |tail| ensures Quantity(next, (5, tail[i].0)) == 0 {
        assert rows[i + 1] == tail[i];
        SetRefundQuantity(rs, (5, rows[0].0), quantity, (5, tail[i].0));
      }
      SetRefundQuantity(rs, (5, rows[0].0), quantity, (5, rows[0].0));
      ExpItemsExact(next, rest, tail);
      OtherItems(next, rest, tail, rows[0].0);
      RestBound(next, rest, tail);
      WorthStep(ExpItems(rs, exp, rows).0, rows, quantity);
      assert forall i | 0 < i < |rows| :: rows[i] == tail[i - 1];
    }
  }

  lemma {:induction false} WorthStep(rs: Refund, rows: seq<(int, int)>, quantity: int)
    requires rows != [] && Quantity(rs, (5, rows[0].0)) == quantity
    ensures Worth(rs, rows) == quantity * rows[0].1 + Worth(rs, rows[1..])
  {
  }

  lemma {:induction false} Division(a: nat, b: nat)
    requires b > 0
    ensures a == a / b * b + a % b && 0 <= a % b < b && a % b <= a && (a / b == 0 ==> a % b == a)
  {
  }

  lemma {:induction false} RestBound(rs: Refund, exp: nat, rows: seq<(int, int)>)
    requires forall i | 0 <= i < |rows| :: rows[i].1 > 0
    ensures ExpItems(rs, exp, rows).1 <= exp
    decreases |rows|
  {
    hide SetRefund;
    if rows != [] {
      Division(exp, rows[0].1);
      var quantity := exp / rows[0].1;
      RestBound(if quantity > 0 then SetRefund(rs, (5, rows[0].0), quantity) else rs, exp % rows[0].1, rows[1..]);
    }
  }

  // ----- tables ----------------------------------------------------------------------------------

  /** The level of a character: the highest whose experience it has reached. */
  lemma {:induction false} LevelIs(levels: seq<(int, int)>, exp: int)
    ensures var r := Level(levels, exp);
            && (r.None? <==> forall i | 0 <= i < |levels| :: levels[i].0 > exp)
            && (r.Some? ==> (exists i | 0 <= i < |levels| :: levels[i].0 <= exp && levels[i].1 == r.value)
                            && forall i | 0 <= i < |levels| && levels[i].0 <= exp :: levels[i].1 <= r.value)
    decreases |levels|
  {
    if levels != [] {
      var rest := levels[1..];
      assert forall i | 0 <= i < |rest| :: rest[i] == levels[i + 1];
      LevelIs(rest, exp);
      if Level(rest, exp).Some? {
        var j :| 0 <= j < |rest| && rest[j].0 <= exp && rest[j].1 == Level(rest, exp).value;
        assert levels[j + 1] == rest[j];
      }
      forall i | 0 <= i < |levels| && levels[i].0 <= exp && i > 0 ensures rest[i - 1].0 <= exp { }
    }
  }

  /** The fee of a reset: one of the reset item from the required level on, nothing below. */
  lemma {:induction false} FeeIs(rules: Rules, ch: Character)
    ensures var fee := Fee(rules, ch);
            fee.kind == 5 && fee.id == rules.resetItem && fee.quantity in {0, 1}
            && (fee.quantity == 1 <==>
                  || (exists i | 0 <= i < |rules.levels| :: rules.levels[i].0 <= ch.exp && rules.levels[i].1 >= rules.resetLevel)
                  || (1 >= rules.resetLevel && forall i | 0 <= i < |rules.levels| :: rules.levels[i].0 > ch.exp))
  {
    LevelIs(rules.levels, ch.exp);
  }

  /** The items that experience is paid back in. */
  function ItemsDue(rules: Rules, exp: nat): Refund
    requires GoodRules(rules)
  {
    var rows := Descending(rules.expItems);
    RowsStay(rules.expItems, rows);
    ExpItems([], exp, rows).0
  }

  /** The coins paid back for experience: the rate, in hundredths, of what the items paid back are worth. */
  lemma {:induction false} ExpCoins(rules: Rules, exp: nat)
    requires GoodRules(rules) && DistinctItems(Descending(rules.expItems))
    ensures var worth := Worth(ItemsDue(rules, exp), Descending(rules.expItems));
            worth <= exp && 100 * ExpCole(rules, exp) <= worth * rules.colePerExp < 100 * ExpCole(rules, exp) + 100
            && Quantity(ExpRefund(rules, exp), (3, 1)) == ExpCole(rules, exp)
            && forall item :: Quantity(ExpRefund(rules, exp), (5, item)) == Quantity(ItemsDue(rules, exp), (5, item))
  {
    hide ExpItems, Descending, Worth, SetRefund, Quantity;
    var rows := Descending(rules.expItems);
    RowsStay(rules.expItems, rows);
    assert forall k :: Quantity([], k) == 0 by { forall k ensures Quantity([], k) == 0 { NothingDue(k); } }
    ExpItemsExact([], exp, rows);
    RestBound([], exp, rows);
    var (rs, rest) := ExpItems([], exp, rows);
    SetRefundQuantity(rs, (3, 1), ExpCole(rules, exp), (3, 1));
    forall item ensures Quantity(ExpRefund(rules, exp), (5, item)) == Quantity(rs, (5, item)) {
      SetRefundQuantity(rs, (3, 1), ExpCole(rules, exp), (5, item));
    }
  }

  lemma {:induction false} NothingDue(k: (int, int))
    ensures Quantity([], k) == 0
  {
  }

  /** The items are taken in the order of their values, and no other rows are. */
  lemma {:induction false} DescendingOrder(rows: seq<(int, int)>)
    ensures multiset(Descending(rows)) == multiset(rows)
    ensures forall i, j | 0 <= i <= j < |rows| :: |Descending(rows)| == |rows| && Descending(rows)[j].1 <= Descending(rows)[i].1
    decreases |rows|
  {
    if rows != [] {
      DescendingOrder(rows[1..]);
      var rest := Descending(rows[1..]);
      assert |multiset(rest)| == |rest| && |multiset(rows[1..])| == |rows[1..]|;
      InsertOrder(rows[0], rest);
      assert |multiset(Descending(rows))| == |Descending(rows)| && |multiset(rows)| == |rows|;
    }
  }

  lemma {:induction false} InsertOrder(row: (int, int), rows: seq<(int, int)>)
    requires forall i, j | 0 <= i <= j < |rows| :: rows[j].1 <= rows[i].1
    ensures forall i, j | 0 <= i <= j < |InsertItem(row, rows)| :: InsertItem(row, rows)[j].1 <= InsertItem(row, rows)[i].1
    decreases |rows|
  {
    if rows != [] && rows[0].1 > row.1 {
      var rest := rows[1..];
      assert forall i | 0 <= i < |rest| :: rest[i] == rows[i + 1];
      InsertOrder(row, rest);
      var r := InsertItem(row, rest);
      forall i | 0 <= i < |r| ensures r[i].1 <= rows[0].1 {
        assert r[i] in multiset(r);
        assert r[i] == row || r[i] in rest;
      }
    }
  }

  /**
   * Which number a panel moves: type 1 one of the character's six statuses, type 2 the same rate for everybody of the role,
   * types 3 to 10 a number of the character each. Two panels move the same number exactly when these agree.
   */
  lemma {:induction false} NumbersApart(r1: int, p: Panel, r2: int, q: Panel)
    ensures KeyOf(r1, p).Some? <==>
              || (p.panelType in {1, 2} && p.status.Some? && p.status.value in {1, 2, 3, 4, 5, 6})
              || p.panelType in {3, 4, 5, 6, 7, 8, 9, 10}
    ensures KeyOf(r1, p).Some? && KeyOf(r2, q).Some? ==>
              (KeyOf(r1, p) == KeyOf(r2, q) <==>
                 && p.panelType == q.panelType
                 && (p.panelType in {1, 2} ==> p.status == q.status)
                 && (p.panelType == 2 ==> r1 == r2))
    ensures KeyOf(r1, p).Some? ==> (KeyOf(r1, p).value.Shared? <==> p.panelType == 2)
  {
  }

  /** One panel effect: its number moves by the signed value, if it stays within 0 and 32 bits, and no other number moves. */
  lemma {:induction false} EffectMoves(s: Stats, role: int, p: Panel, sign: int)
    ensures Effect(s, role, p, sign).Ok? <==>
              KeyOf(role, p).Some? && 0 <= Get(s, KeyOf(role, p).value) + sign * p.value <= I32_MAX
    ensures Effect(s, role, p, sign).Ok? ==>
              forall k :: Get(Effect(s, role, p, sign).value, k) == Get(s, k) + (if KeyOf(role, p) == Some(k) then sign * p.value else 0)
  {
  }

  /** How far a board may be opened. */
  lemma {:induction false} LimitIs(rules: Rules, ch: Character)
    ensures Limit(rules, ch, Normal).Some? && Limit(rules, ch, Ex) == Some(|rules.ex|)
    ensures var l := Limit(rules, ch, Normal).value;
            l <= rules.normalLimit && l <= |rules.normal| && (l == rules.normalLimit || l == |rules.normal|)
    ensures Limit(rules, ch, Neo).Some? <==>
              rules.neo.Some?
              && (ch.neo.page != 1 || 0 in ch.neo.bits
                  || (rules.neoReady && Complete(rules.normal, ch.normal) && Complete(rules.ex, ch.ex)))
    ensures Limit(rules, ch, Neo).Some? ==>
              var l := Limit(rules, ch, Neo).value;
              l <= rules.neoLimit && l <= |rules.neo.value| && (l == rules.neoLimit || l == |rules.neo.value|)
  {
    hide Complete;
  }

  /** A board is complete when its last page is the current one and every panel of it was bought. */
  lemma {:induction false} CompleteExactly(board: Board, pr: Progress)
    requires OnBoard(board, pr)
    ensures Complete(board, pr) <==> pr.page == |board| && forall i | 0 <= i < |board[|board| - 1]| :: i in pr.bits
  {
    if pr.page == |board| && (forall i | 0 <= i < |board[|board| - 1]| :: i in pr.bits) {
      assert pr.bits == All(board[|board| - 1]);
    }
  }

  /**
   * Where an order leads, exactly: from a page within the limit to the same or a later one within it, by indexes of the
   * page aimed at; on the same page the old panels stay and there is a new one; the EX board starts at its first panel.
   */
  lemma {:induction false} DestinationExactly(rules: Rules, ch: Character, w: Which, order: Order)
    requires Limit(rules, ch, w).Some?
    ensures var limit, pr, board := Limit(rules, ch, w).value, ProgressOf(ch, w), BoardOf(rules, w).value;
            var to := Destination(rules, ch, w, order);
            var onPage := 1 <= pr.page <= limit;
            && (order.Bulk? ==>
                  (to.Some? <==>
                     && onPage && pr.page <= order.target <= limit
                     && (forall i | i in order.bits :: 0 <= i < |board[order.target - 1]|)
                     && (order.target == pr.page ==> !(order.bits <= pr.bits))
                     && (w.Ex? ==> 0 in order.bits || (order.target == pr.page && 0 in pr.bits)
                                   || (order.bits == {} && (order.target != pr.page || pr.bits == {}))))
                  && (to.Some? ==> to.value.page == order.target
                                   && to.value.bits == if order.target == pr.page then pr.bits + order.bits else order.bits))
            && (order.PageRelease? ==>
                  (to.Some? <==> onPage && pr.page < limit && pr.bits == All(board[pr.page - 1]))
                  && (to.Some? ==> to.value == Progress(pr.page + 1, {})))
  {
    hide All, Complete;
  }

  /** What there is to reset: experience, or, unless only the level is reset, a board that was begun. */
  lemma {:induction false} SomethingToReset(ch: Character, onlyLevel: bool)
    ensures !NothingToReset(ch, onlyLevel) <==>
              || ch.exp != 0
              || (!onlyLevel && (ch.normal.page != 1 || ch.normal.bits != {} || ch.ex.page != 1 || ch.ex.bits != {}))
  {
  }

  // ----- the walk of a reset -------------------------------------------------------------------

  /** The owned panels from page `n` on, in order. */
  function OwnedFrom(board: Board, pr: Progress, n: int): seq<Panel>
    requires 1 <= n && pr.page <= |board|
    decreases pr.page + 1 - n
  {
    if n > pr.page then []
    else Pick(board[n - 1], if n < pr.page then All(board[n - 1]) else pr.bits, 0) + OwnedFrom(board, pr, n + 1)
  }

  lemma {:induction false} OwnedInOrder(board: Board, pr: Progress, n: int)
    requires 1 <= n <= pr.page <= |board|
    ensures FullPages(board, n - 1) + OwnedFrom(board, pr, n) == Owned(board, pr)
    decreases pr.page - n
  {
    hide Pick, All;
    if n < pr.page {
      OwnedInOrder(board, pr, n + 1);
      var here := Pick(board[n - 1], All(board[n - 1]), 0);
      assert FullPages(board, n) == FullPages(board, n - 1) + here;
      assert FullPages(board, n - 1) + (here + OwnedFrom(board, pr, n + 1)) == FullPages(board, n - 1) + here + OwnedFrom(board, pr, n + 1);
    } else {
      assert OwnedFrom(board, pr, n + 1) == [];
    }
  }

  lemma {:induction false} UndoInTwo(s: Stats, role: int, rs: Refund, a: seq<Panel>, b: seq<Panel>)
    ensures UndoAll(s, role, a + b) == if UndoAll(s, role, a).Ok? then UndoAll(UndoAll(s, role, a).value, role, b) else UndoAll(s, role, a)
    ensures AllWrapping(rs, a + b) == AllWrapping(AllWrapping(rs, a), b)
    decreases |a|
  {
    hide Effect, CostsWrapping, AddWrapping;
    if a == [] {
      assert a + b == b;
    } else {
      assert (a + b)[1..] == a[1..] + b;
      var t := Effect(s, role, a[0], -1);
      UndoInTwo(if t.Ok? then t.value else s, role, CostsWrapping(AddWrapping(rs, (3, 1), a[0].cole), a[0].costs), a[1..], b);
    }
  }

  // ----- the reducers --------------------------------------------------------------------------

  class Account {
    var purse: Purse
    var stats: Stats
    var ch: Character

    function Now(): State
      reads this
    {
      State(purse, stats, ch)
    }

    /** spend */
    method Spend(costs: seq<Cost>) returns (ok: bool)
      modifies `purse
      ensures ok == PayAll(old(purse), costs).Ok?
      ensures ok ==> purse == PayAll(old(purse), costs).value
    {
      var i := 0;
      while i < |costs|
        invariant 0 <= i <= |costs|
        invariant PayAll(old(purse), costs) == PayAll(purse, costs[i..])
      {
        assert costs[i..][1..] == costs[i + 1..];
        match Pay(purse, costs[i]) {
          case Err(_) => return false;
          case Ok(p) => purse := p;
        }
        i := i + 1;
      }
      ok := true;
    }

    /** panel_effect */
    method PanelEffect(p: Panel, sign: int) returns (ok: bool)
      modifies `stats
      ensures ok == Effect(old(stats), ch.role, p, sign).Ok?
      ensures stats == if ok then Effect(old(stats), ch.role, p, sign).value else old(stats)
    {
      var key := KeyOf(ch.role, p);
      if key.None? { return false; }
      var next := Get(stats, key.value) + sign * p.value;
      if next < 0 || next > I32_MAX { return false; }
      stats := stats[key.value := next];
      ok := true;
    }

    method BuyPanel(p: Panel) returns (ok: bool)
      modifies `purse, `stats
      ensures ok == BuyOne(old(Now()), p).Ok?
      ensures ok ==> Now() == BuyOne(old(Now()), p).value
    {
      ok := Spend(p.costs);
      if !ok { return; }
      PayOne(purse, Cost(3, 1, p.cole));
      ok := Spend([Cost(3, 1, p.cole)]);
      if !ok { return; }
      ok := PanelEffect(p, 1);
    }

    static lemma {:induction false} PayOne(p: Purse, c: Cost)
      ensures PayAll(p, [c]) == Pay(p, c)
    {
      if Pay(p, c).Ok? { assert PayAll(Pay(p, c).value, [c][1..]) == Pay(p, c); }
    }

    /** growboard: a refused order may leave payments behind, which the caller discards with the transaction. */
    method ReleasePanels(rules: Rules, w: Which, order: Order) returns (purchased: Option<nat>)
      modifies this
      ensures purchased.Some? <==> Release(rules, old(Now()), w, order).Ok?
      ensures purchased.Some? ==> (Now(), purchased.value) == Release(rules, old(Now()), w, order).value
    {
      hide BuyOne, Limit, Pick, All;
      var to := Destination(rules, ch, w, order);
      if to.None? { return None; }
      var board, pr := BoardOf(rules, w).value, ProgressOf(ch, w);
      var target, bits := to.value.page, to.value.bits;
      ghost var all := ToBuy(board, pr, target, bits, pr.page);
      ghost var rest := all;
      var count := 0;
      var n := pr.page;
      while n <= target
        invariant pr.page <= n <= target + 1 && ch == old(ch) && count + |rest| == |all|
        invariant rest == ToBuy(board, pr, target, bits, n)
        invariant BuyAll(old(Now()), all) == BuyAll(Now(), rest)
      {
        var wanted := Wanted(board, pr, target, bits, n);
        assert rest == Pick(board[n - 1], wanted, 0) + ToBuy(board, pr, target, bits, n + 1);
        rest := ToBuy(board, pr, target, bits, n + 1);
        var bought := BuyFrom(board[n - 1], wanted, rest);
        if bought.None? { return None; }
        count, n := count + bought.value, n + 1;
      }
      ch := SetProgress(ch, w, to.value);
      purchased := Some(count);
    }

    /** The panels of one page, in order. */
    method BuyFrom(page: Page, wanted: set<int>, ghost later: seq<Panel>) returns (bought: Option<nat>)
      modifies `purse, `stats
      ensures bought.Some? ==> bought.value == |Pick(page, wanted, 0)| && Now() == State(purse, stats, old(ch))
                               && BuyAll(old(Now()), Pick(page, wanted, 0) + later) == BuyAll(Now(), later)
      ensures bought.None? ==> BuyAll(old(Now()), Pick(page, wanted, 0) + later).Err?
    {
      hide BuyOne;
      var count := 0;
      var i := 0;
      while i < |page|
        invariant 0 <= i <= |page| && ch == old(ch)
        invariant count + |Pick(page, wanted, i)| == |Pick(page, wanted, 0)|
        invariant BuyAll(old(Now()), Pick(page, wanted, 0) + later) == BuyAll(Now(), Pick(page, wanted, i) + later)
      {
        if i in wanted {
          assert (Pick(page, wanted, i) + later)[1..] == Pick(page, wanted, i + 1) + later;
          var ok := BuyPanel(page[i]);
          if !ok { return None; }
          count := count + 1;
        } else {
          assert Pick(page, wanted, i) == Pick(page, wanted, i + 1);
        }
        i := i + 1;
      }
      assert Pick(page, wanted, i) + later == later;
      bought := Some(count);
    }

    /** reset */
    method ResetCharacter(rules: Rules, onlyLevel: bool) returns (ok: bool)
      requires GoodRules(rules) && Playable(rules, ch)
      modifies this
      ensures ok == Reset(rules, old(Now()), onlyLevel).Ok?
      ensures ok ==> Now() == Reset(rules, old(Now()), onlyLevel).value
    {
      hide Pay, UndoAll, AllWrapping, CreditAll, ExpRefund, ExpCole, OwnedFrom, Owned, Fee;
      if NothingToReset(ch, onlyLevel) { return false; }
      var fee := Fee(rules, ch);
      PayOne(purse, fee);
      ok := Spend([fee]);
      if !ok { return; }
      if ExpCole(rules, ch.exp) > I32_MAX { return false; }
      var refund := ExpRefund(rules, ch.exp);
      UndoNothing(stats, ch.role, refund);
      if !onlyLevel {
        UndoInTwo(stats, ch.role, refund, Owned(rules.normal, ch.normal), Owned(rules.ex, ch.ex));
        ok, refund := Walk(rules.normal, ch.normal, refund);
        if !ok { return; }
        ok, refund := Walk(rules.ex, ch.ex, refund);
        if !ok { return; }
        ch := ch.(normal := Progress(1, {}), ex := Progress(1, {}));
      }
      ch := ch.(exp := 0);
      ok := CreditRewards(refund);
    }

    static lemma {:induction false} UndoNothing(s: Stats, role: int, rs: Refund)
      ensures UndoAll(s, role, []) == Ok(s) && AllWrapping(rs, []) == rs
    {
    }

    /** One board of a reset: panels of earlier pages, and those of the current page whose bit is set. */
    method Walk(board: Board, pr: Progress, refund: Refund) returns (ok: bool, more: Refund)
      requires 1 <= pr.page <= |board|
      modifies `stats
      ensures ok == UndoAll(old(stats), ch.role, Owned(board, pr)).Ok?
      ensures ok ==> stats == UndoAll(old(stats), ch.role, Owned(board, pr)).value && more == AllWrapping(refund, Owned(board, pr))
    {
      hide Effect, AddWrapping, CostsWrapping, All, FullPages, Owned;
      more := refund;
      ghost var rest := OwnedFrom(board, pr, 1);
      OwnedInOrder(board, pr, 1);
      assert FullPages(board, 0) + rest == rest by { NoPages(board); }
      var page := 1;
      while page <= pr.page
        invariant 1 <= page <= pr.page + 1 && rest == OwnedFrom(board, pr, page)
        invariant UndoAll(old(stats), ch.role, Owned(board, pr)) == UndoAll(stats, ch.role, rest)
        invariant AllWrapping(refund, Owned(board, pr)) == AllWrapping(more, rest)
      {
        var panels := board[page - 1];
        ghost var keep := if page < pr.page then All(panels) else pr.bits;
        ghost var later := OwnedFrom(board, pr, page + 1);
        var index := 0;
        while index < |panels|
          invariant 0 <= index <= |panels| && rest == Pick(panels, keep, index) + later
          invariant UndoAll(old(stats), ch.role, Owned(board, pr)) == UndoAll(stats, ch.role, rest)
          invariant AllWrapping(refund, Owned(board, pr)) == AllWrapping(more, rest)
        {
          var skipped := page == pr.page && index !in pr.bits;
          assert skipped == (index !in keep);
          if !skipped {
            var p := panels[index];
            assert rest[0] == p && rest[1..] == Pick(panels, keep, index + 1) + later;
            more := CostsWrapping(AddWrapping(more, (3, 1), p.cole), p.costs);
            ok := PanelEffect(p, -1);
            if !ok { return; }
            rest := rest[1..];
          } else {
            assert Pick(panels, keep, index) == Pick(panels, keep, index + 1);
          }
          index := index + 1;
        }
        assert rest == later;
        page := page + 1;
      }
      ok := true;
    }

    static lemma {:induction false} NoPages(board: Board)
      ensures FullPages(board, 0) == []
    {
    }

    /** apply_quest_rewards on the positive entries of a refund */
    method CreditRewards(refund: Refund) returns (ok: bool)
      modifies `purse
      ensures ok == CreditAll(old(purse), refund).Ok?
      ensures ok ==> purse == CreditAll(old(purse), refund).value
    {
      hide Credit;
      var i := 0;
      while i < |refund|
        invariant 0 <= i <= |refund|
        invariant CreditAll(old(purse), refund) == CreditAll(purse, refund[i..])
      {
        assert refund[i..][1..] == refund[i + 1..];
        if refund[i].1 > 0 {
          match Credit(purse, refund[i].0.0, refund[i].0.1, refund[i].1) {
            case Err(_) => return false;
            case Ok(p) => purse := p;
          }
        }
        i := i + 1;
      }
      ok := true;
    }
  }
}
