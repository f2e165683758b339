/**
 * The ledger: netting, averaging and cash in the portfolio engine, checked against a
 * cost-basis ledger kept from the fills alone, and the paper broker's mirror book.
 */
module Portfolio {
  import opened Common

  datatype Side = Buy | Sell

  /** `charges` is commission plus statutory charges. */
  datatype Fill = Fill(symbol: string, side: Side, quantity: int, price: real, charges: real)
  datatype Position = Position(symbol: string, quantity: int, avg: real)
  datatype Book = Book(positions: seq<Position>, balance: real)

  predicate Positive(f: Fill) { f.quantity > 0 && f.price > 0.0 }

  ghost predicate AllPositive(fills: seq<Fill>) {
    forall i :: 0 <= i < |fills| ==> Positive(fills[i])
  }

  function Signed(f: Fill): int { if f.side == Buy then f.quantity else -f.quantity }

  // ------------------------------------------------------------ the engine's rule

  function Find(ps: seq<Position>, symbol: string): (i: nat)
    ensures i <= |ps|
    ensures i < |ps| ==> ps[i].symbol == symbol
    ensures forall j :: 0 <= j < i ==> ps[j].symbol != symbol
  {
    if ps == [] || ps[0].symbol == symbol then 0 else 1 + Find(ps[1..], symbol)
  }

  function AbsInt(x: int): int { if x >= 0 then x else -x }

  /** The re-averaged entry price of a same-direction add. */
  function Reaveraged(avg: real, quantity: int, price: real, s: int): real
    requires quantity + s != 0
  {
    Abs((avg * quantity as real + price * s as real) / (quantity + s) as real)
  }

  /** The netted position, or nothing when it is flat. */
  function Netted(p: Position, f: Fill): Option<Position> {
    var s := Signed(f);
    var q := p.quantity + s;
    if q == 0 then None
    else if (p.quantity > 0) == (s > 0) then
      Some(Position(p.symbol, q, Reaveraged(p.avg, p.quantity, f.price, s)))
    else if p.quantity * q < 0 then Some(Position(p.symbol, q, f.price))
    else Some(Position(p.symbol, q, p.avg))
  }

  function PositionsAfter(ps: seq<Position>, f: Fill): seq<Position> {
    var i := Find(ps, f.symbol);
    if i == |ps| then ps + [Position(f.symbol, Signed(f), f.price)]
    else
      var p := Netted(ps[i], f);
      if p.None? then ps[..i] + ps[i + 1..] else ps[i := p.value]
  }

  function BalanceAfter(balance: real, f: Fill): real {
    var notional := f.price * f.quantity as real;
    if f.side == Buy then balance - notional - f.charges else balance + notional - f.charges
  }

  function BookAfter(b: Book, f: Fill): Book {
    Book(PositionsAfter(b.positions, f), BalanceAfter(b.balance, f))
  }

  function Replay(b: Book, fills: seq<Fill>): Book {
    if fills == [] then b else BookAfter(Replay(b, fills[..|fills| - 1]), fills[|fills| - 1])
  }

  // -------------------------------------------- the reference: a cost-basis ledger

  /** Net quantity, its signed total cost, and the profit taken so far, for one symbol. */
  datatype Basis = Basis(qty: int, cost: real, realized: real)

  /** The signed part of the holding that a signed quantity `s` closes. */
  function Closed(qty: int, s: int): int {
    if qty == 0 || (qty > 0) == (s > 0) then 0
    else if AbsInt(s) <= AbsInt(qty) then -s
    else qty
  }

  /** Closing releases a proportional share of the cost; the rest of the fill is bought at its price. */
  function BasisAfter(b: Basis, s: int, price: real): Basis {
    var c := Closed(b.qty, s);
    var released := if c == 0 then 0.0 else b.cost * c as real / b.qty as real;
    Basis(b.qty + s,
          b.cost - released + (s + c) as real * price,
          b.realized + c as real * price - released)
  }

  function BasisOf(fills: seq<Fill>, symbol: string): Basis {
    if fills == [] then Basis(0, 0.0, 0.0)
    else
      var f := fills[|fills| - 1];
      var b := BasisOf(fills[..|fills| - 1], symbol);
      if f.symbol == symbol then BasisAfter(b, Signed(f), f.price) else b
  }

  /** Signed sum of one symbol's fills. */
  function NetQuantity(fills: seq<Fill>, symbol: string): int {
    if fills == [] then 0
    else
      var f := fills[|fills| - 1];
      NetQuantity(fills[..|fills| - 1], symbol) + if f.symbol == symbol then Signed(f) else 0
  }

  lemma NetQuantityAppend(fills: seq<Fill>, f: Fill, symbol: string)
    ensures NetQuantity(fills + [f], symbol) == NetQuantity(fills, symbol) + if f.symbol == symbol then Signed(f) else 0
  {
    assert (fills + [f])[..|fills|] == fills;
  }

  /** Profit realized over all symbols. */
  function Realized(fills: seq<Fill>): real {
    if fills == [] then 0.0
    else
      var n := |fills| - 1;
      var s := fills[n].symbol;
      Realized(fills[..n]) + BasisOf(fills, s).realized - BasisOf(fills[..n], s).realized
  }

  function Charges(fills: seq<Fill>): real {
    if fills == [] then 0.0 else Charges(fills[..|fills| - 1]) + fills[|fills| - 1].charges
  }

  function Cost(p: Position): real { p.quantity as real * p.avg }

  function CostOf(ps: seq<Position>): real {
    if ps == [] then 0.0 else CostOf(ps[..|ps| - 1]) + Cost(ps[|ps| - 1])
  }

  // ------------------------------------------------------------ one fill, one symbol

  /** The position carries exactly the basis: same quantity, average cost per unit. */
  ghost predicate Carries(p: Position, b: Basis) {
    p.quantity == b.qty != 0 && p.avg > 0.0 && Cost(p) == b.cost
  }

  lemma DivMul(x: real, q: real)
    requires q != 0.0
    ensures x / q * q == x
    ensures q > 0.0 && x > 0.0 ==> x / q > 0.0
    ensures q < 0.0 && x < 0.0 ==> x / q > 0.0
  {
  }

  lemma ProductSign(x: real, y: real)
    ensures x > 0.0 && y > 0.0 ==> x * y > 0.0
    ensures x < 0.0 && y > 0.0 ==> x * y < 0.0
  {
  }

  lemma AddCarries(p: Position, f: Fill, b: Basis)
    requires Carries(p, b) && Positive(f) && (p.quantity > 0) == (Signed(f) > 0)
    ensures var n := Netted(p, f); n.Some? && n.value.symbol == p.symbol && Carries(n.value, BasisAfter(b, Signed(f), f.price))
  {
    var s := Signed(f);
    var q := p.quantity + s;
    var total := p.avg * p.quantity as real + f.price * s as real;
    assert total == b.cost + s as real * f.price;
    ProductSign(p.quantity as real, p.avg);
    ProductSign(s as real, f.price);
    DivMul(total, q as real);
  }

  lemma Proportion(avg: real, q: real, c: real)
    requires q != 0.0
    ensures q * avg * c / q == c * avg
  {
    assert q * avg * c == (c * avg) * q;
    assert (c * avg) * q / q == c * avg;
  }

  lemma Released(p: Position, b: Basis, c: int)
    requires Carries(p, b)
    ensures b.cost * c as real / b.qty as real == c as real * p.avg
  {
    Proportion(p.avg, p.quantity as real, c as real);
  }

  /** A partial or full exit: the entry price stays, the released cost is the closed share. */
  lemma ExitCarries(p: Position, f: Fill, b: Basis)
    requires Carries(p, b) && Positive(f) && (p.quantity > 0) != (Signed(f) > 0)
    requires AbsInt(Signed(f)) <= AbsInt(p.quantity)
    ensures var n, b' := Netted(p, f), BasisAfter(b, Signed(f), f.price);
            if b'.qty == 0 then n.None? && b'.cost == 0.0
            else n.Some? && n.value.symbol == p.symbol && Carries(n.value, b')
  {
    var s := Signed(f);
    var q := p.quantity + s;
    Released(p, b, -s);
    SameSign(p.quantity, q);
    assert BasisAfter(b, s, f.price).cost == b.cost - (-s) as real * p.avg;
    ExitArithmetic(p.quantity, s, p.avg);
  }

  lemma ExitArithmetic(q: int, s: int, avg: real)
    ensures q as real * avg - (-s) as real * avg == (q + s) as real * avg
  {
  }

  /** An exit-and-reverse: the old cost is released whole, the residual opens fresh. */
  lemma ReverseCarries(p: Position, f: Fill, b: Basis)
    requires Carries(p, b) && Positive(f) && (p.quantity > 0) != (Signed(f) > 0)
    requires AbsInt(Signed(f)) > AbsInt(p.quantity)
    ensures var n := Netted(p, f); n.Some? && n.value.symbol == p.symbol && Carries(n.value, BasisAfter(b, Signed(f), f.price))
  {
    var s := Signed(f);
    var q := p.quantity + s;
    Released(p, b, p.quantity);
    OppositeSign(p.quantity, q);
    assert BasisAfter(b, s, f.price).cost == q as real * f.price;
  }

  lemma SameSign(a: int, b: int)
    requires (a > 0 && b >= 0) || (a < 0 && b <= 0)
    ensures a * b >= 0
  {
  }

  lemma OppositeSign(a: int, b: int)
    requires (a > 0 && b < 0) || (a < 0 && b > 0)
    ensures a * b < 0
  {
  }

  /** A fill moves exactly its signed notional between cost basis and realized profit. */
  lemma BasisConserves(b: Basis, s: int, price: real)
    ensures var b' := BasisAfter(b, s, price);
            b'.cost - b'.realized == b.cost - b.realized + s as real * price && b'.qty == b.qty + s
  {
    var c := Closed(b.qty, s);
    assert (s + c) as real * price == s as real * price + c as real * price;
  }

  // --------------------------------------------------------------- the whole book

  ghost predicate Distinct(ps: seq<Position>) {
    forall i, j :: 0 <= i < j < |ps| ==> ps[i].symbol != ps[j].symbol
  }

  /** The book's entry for a symbol agrees with its basis; flat symbols have none. */
  ghost predicate Agrees(ps: seq<Position>, symbol: string, b: Basis) {
    var i := Find(ps, symbol);
    if b.qty == 0 then i == |ps| && b.cost == 0.0 else i < |ps| && Carries(ps[i], b)
  }

  lemma FindUnique(ps: seq<Position>, symbol: string, i: nat)
    requires Distinct(ps) && i < |ps| && ps[i].symbol == symbol
    ensures Find(ps, symbol) == i
  {
    var j := Find(ps, symbol);
    assert j <= i;
  }

  lemma StaysDistinct(ps: seq<Position>, f: Fill)
    requires Distinct(ps)
    ensures Distinct(PositionsAfter(ps, f))
  {
    var ps', i := PositionsAfter(ps, f), Find(ps, f.symbol);
    if |ps'| < |ps| {
      assert forall j :: 0 <= j < |ps'| ==> ps'[j] == ps[if j < i then j else j + 1];
    } else if i < |ps| {
      assert forall j :: 0 <= j < |ps'| ==> ps'[j].symbol == ps[j].symbol;
    }
  }

  /** Only the filled symbol's entry changes. */
  lemma OthersUntouched(ps: seq<Position>, f: Fill, symbol: string)
    requires Distinct(ps) && symbol != f.symbol
    ensures var ps' := PositionsAfter(ps, f);
            && (Find(ps, symbol) == |ps| ==> Find(ps', symbol) == |ps'|)
            && (Find(ps, symbol) < |ps| ==> Find(ps', symbol) < |ps'| && ps'[Find(ps', symbol)] == ps[Find(ps, symbol)])
  {
    StaysDistinct(ps, f);
    var ps' := PositionsAfter(ps, f);
    var i, k := Find(ps, f.symbol), Find(ps, symbol);
    if k < |ps| {
      var k' := if |ps'| < |ps| && k > i then k - 1 else k;
      assert ps'[k'] == ps[k];
      FindUnique(ps', symbol, k');
    } else {
      assert forall j :: 0 <= j < |ps'| ==> ps'[j].symbol != symbol;
    }
  }

  /** What the fill does to the filled symbol's own entry. */
  lemma FilledEntry(ps: seq<Position>, f: Fill)
    requires Distinct(ps)
    ensures var ps', i := PositionsAfter(ps, f), Find(ps, f.symbol);
            var p := if i == |ps| then Some(Position(f.symbol, Signed(f), f.price)) else Netted(ps[i], f);
            if p.None? then Find(ps', f.symbol) == |ps'|
            else Find(ps', f.symbol) < |ps'| && ps'[Find(ps', f.symbol)] == p.value
  {
    var ps', i := PositionsAfter(ps, f), Find(ps, f.symbol);
    StaysDistinct(ps, f);
    if i == |ps| || Netted(ps[i], f).Some? {
      FindUnique(ps', f.symbol, i);
    } else {
      assert forall j :: 0 <= j < |ps'| ==> ps'[j].symbol != f.symbol;
    }
  }

  /** What netting makes of a position that carries its basis. */
  lemma NettedCarries(p: Position, f: Fill, b: Basis)
    requires Carries(p, b) && Positive(f)
    ensures var n, b' := Netted(p, f), BasisAfter(b, Signed(f), f.price);
            if b'.qty == 0 then n.None? && b'.cost == 0.0
            else n.Some? && n.value.symbol == p.symbol && Carries(n.value, b')
  {
    if (p.quantity > 0) == (Signed(f) > 0) {
      AddCarries(p, f, b);
    } else if AbsInt(Signed(f)) <= AbsInt(p.quantity) {
      ExitCarries(p, f, b);
    } else {
      ReverseCarries(p, f, b);
    }
  }

  /** A first fill carries its own notional as basis. */
  lemma FirstFillCarries(f: Fill, b: Basis)
    requires Positive(f) && b.qty == 0 && b.cost == 0.0
    ensures Carries(Position(f.symbol, Signed(f), f.price), BasisAfter(b, Signed(f), f.price))
  {
    assert BasisAfter(b, Signed(f), f.price).cost == Signed(f) as real * f.price;
  }

  lemma {:induction false} FillKeepsAgreement(ps: seq<Position>, f: Fill, symbol: string, b: Basis)
    requires Distinct(ps) && Positive(f) && Agrees(ps, symbol, b)
    ensures Distinct(PositionsAfter(ps, f))
    ensures Agrees(PositionsAfter(ps, f), symbol, if f.symbol == symbol then BasisAfter(b, Signed(f), f.price) else b)
  {
    StaysDistinct(ps, f);
    if f.symbol != symbol {
      OthersUntouched(ps, f, symbol);
    } else {
      FilledEntry(ps, f);
      var i := Find(ps, symbol);
      if i == |ps| { FirstFillCarries(f, b); } else { NettedCarries(ps[i], f, b); }
    }
  }

  /** After any positive fills every symbol's entry is what the cost-basis ledger says. */
  lemma {:induction false} BookFollowsBasis(fills: seq<Fill>, cash: real, symbol: string)
    requires AllPositive(fills)
    ensures Distinct(Replay(Book([], cash), fills).positions)
    ensures Agrees(Replay(Book([], cash), fills).positions, symbol, BasisOf(fills, symbol))
    ensures BasisOf(fills, symbol).qty == NetQuantity(fills, symbol)
  {
    if fills != [] {
      var n := |fills| - 1;
      BookFollowsBasis(fills[..n], cash, symbol);
      FillKeepsAgreement(Replay(Book([], cash), fills[..n]).positions, fills[n], symbol, BasisOf(fills[..n], symbol));
    }
  }

  // ---------------------------------------------------------------- cash identity

  lemma {:induction false} CostSplit(ps: seq<Position>, qs: seq<Position>)
    ensures CostOf(ps + qs) == CostOf(ps) + CostOf(qs)
  {
    if qs == [] {
      assert ps + qs == ps;
    } else {
      var n := |qs| - 1;
      assert (ps + qs)[..|ps + qs| - 1] == ps + qs[..n];
      CostSplit(ps, qs[..n]);
    }
  }

  lemma CostOne(p: Position)
    ensures CostOf([p]) == Cost(p)
  {
    assert [p][..0] == [];
  }

  lemma CostAround(ps: seq<Position>, i: nat, mid: seq<Position>)
    requires i < |ps|
    ensures CostOf(ps[..i] + mid + ps[i + 1..]) == CostOf(ps) - Cost(ps[i]) + CostOf(mid)
  {
    assert ps == ps[..i] + [ps[i]] + ps[i + 1..];
    CostSplit(ps[..i] + [ps[i]], ps[i + 1..]);
    CostSplit(ps[..i], [ps[i]]);
    CostOne(ps[i]);
    CostSplit(ps[..i] + mid, ps[i + 1..]);
    CostSplit(ps[..i], mid);
  }

  /** The book's total cost changes by the filled symbol's change of basis. */
  lemma FillMovesCost(ps: seq<Position>, f: Fill, b: Basis)
    requires Distinct(ps) && Positive(f) && Agrees(ps, f.symbol, b)
    ensures CostOf(PositionsAfter(ps, f)) - CostOf(ps) == BasisAfter(b, Signed(f), f.price).cost - b.cost
  {
    FillKeepsAgreement(ps, f, f.symbol, b);
    FilledEntry(ps, f);
    var ps', i := PositionsAfter(ps, f), Find(ps, f.symbol);
    var b' := BasisAfter(b, Signed(f), f.price);
    if i == |ps| {
      var p := Position(f.symbol, Signed(f), f.price);
      CostSplit(ps, [p]);
      CostOne(p);
    } else if Netted(ps[i], f).Some? {
      var p := Netted(ps[i], f).value;
      assert ps' == ps[..i] + [p] + ps[i + 1..];
      CostAround(ps, i, [p]);
      CostOne(p);
    } else {
      assert ps' == ps[..i] + [] + ps[i + 1..];
      CostAround(ps, i, []);
    }
  }

  /** The notional of a fill, as the cash pays it and as the basis takes it up. */
  lemma NotionalMoves(balance: real, f: Fill, b: Basis) returns (notional: real)
    ensures BalanceAfter(balance, f) == balance - notional - f.charges
    ensures var b' := BasisAfter(b, Signed(f), f.price); b'.cost - b'.realized == b.cost - b.realized + notional
  {
    notional := Signed(f) as real * f.price;
    BasisConserves(b, Signed(f), f.price);
    BalanceMovesByNotional(balance, f);
  }

  /** One fill moves the book's worth at cost by the profit it realizes minus its charges. */
  lemma {:induction false} LedgerStep(book: Book, f: Fill, b: Basis)
    requires Distinct(book.positions) && Positive(f) && Agrees(book.positions, f.symbol, b)
    ensures var book', b' := BookAfter(book, f), BasisAfter(b, Signed(f), f.price);
            book'.balance + CostOf(book'.positions)
            == book.balance + CostOf(book.positions) + b'.realized - b.realized - f.charges
  {
    FillMovesCost(book.positions, f, b);
    var notional := NotionalMoves(book.balance, f, b);
  }

  /**
   * Ledger identity: cash plus the cost of the open positions is the initial cash plus
   * realized profit minus charges, through adds, partial exits, flats and reversals.
   */
  lemma {:induction false} LedgerIdentity(fills: seq<Fill>, cash: real)
    requires AllPositive(fills)
    ensures var b := Replay(Book([], cash), fills);
            b.balance + CostOf(b.positions) == cash + Realized(fills) - Charges(fills)
  {
    if fills != [] {
      var n := |fills| - 1;
      var f := fills[n];
      LedgerIdentity(fills[..n], cash);
      BookFollowsBasis(fills[..n], cash, f.symbol);
      LedgerStep(Replay(Book([], cash), fills[..n]), f, BasisOf(fills[..n], f.symbol));
    }
  }

  lemma BalanceMovesByNotional(balance: real, f: Fill)
    ensures BalanceAfter(balance, f) == balance - Signed(f) as real * f.price - f.charges
  {
  }

  /** Each position is the non-zero signed sum of its fills, and there is one exactly when that sum is not zero. */
  lemma PositionIsSignedSum(fills: seq<Fill>, cash: real, symbol: string)
    requires AllPositive(fills)
    ensures var ps := Replay(Book([], cash), fills).positions;
            var i := Find(ps, symbol);
            if NetQuantity(fills, symbol) == 0 then i == |ps|
            else i < |ps| && ps[i].quantity == NetQuantity(fills, symbol) && ps[i].avg > 0.0
  {
    BookFollowsBasis(fills, cash, symbol);
  }

  // ------------------------------------------------------- the paper broker's book

  datatype Holding = Holding(quantity: int, avg: real)

  /** The paper book's weighted average, on absolute quantities. */
  function PaperAverage(avg: real, quantity: int, price: real, added: int, q: int): real
    requires q != 0
  {
    (avg * AbsInt(quantity) as real + price * added as real) / AbsInt(q) as real
  }

  function PaperAfter(m: map<string, Holding>, f: Fill): map<string, Holding> {
    var pos := if f.symbol in m then Some(m[f.symbol]) else None;
    var q := (if pos.Some? then pos.value.quantity else 0) + Signed(f);
    if q == 0 then m - {f.symbol}
    else if pos.None? then m[f.symbol := Holding(q, f.price)]
    else
      var h := pos.value;
      var avg :=
        if h.quantity * q > 0 && AbsInt(q) > AbsInt(h.quantity) then
          PaperAverage(h.avg, h.quantity, f.price, f.quantity, q)
        else if h.quantity * q < 0 then f.price
        else h.avg;
      m[f.symbol := Holding(q, avg)]
  }

  function PaperReplay(fills: seq<Fill>): map<string, Holding> {
    if fills == [] then map[] else PaperAfter(PaperReplay(fills[..|fills| - 1]), fills[|fills| - 1])
  }

  ghost predicate SameEntry(ps: seq<Position>, m: map<string, Holding>, symbol: string) {
    var i := Find(ps, symbol);
    if symbol in m then i < |ps| && ps[i].quantity == m[symbol].quantity && ps[i].avg == m[symbol].avg
    else i == |ps|
  }

  /** The two books apply the same rule to an existing position. */
  lemma SameRule(p: Position, f: Fill, m: map<string, Holding>)
    requires p.quantity != 0 && p.avg > 0.0 && Positive(f)
    requires f.symbol in m && m[f.symbol] == Holding(p.quantity, p.avg)
    ensures var n, m' := Netted(p, f), PaperAfter(m, f);
            if n.None? then f.symbol !in m'
            else f.symbol in m' && m'[f.symbol] == Holding(n.value.quantity, n.value.avg)
  {
    var s := Signed(f);
    var q := p.quantity + s;
    if (p.quantity > 0) == (s > 0) {
      SameSign(p.quantity, q);
      WeightedAverage(p, f);
    } else if q != 0 && (p.quantity > 0) != (q > 0) {
      OppositeSign(p.quantity, q);
    } else if q != 0 {
      SameSign(p.quantity, q);
    }
  }

  lemma WeightedAverage(p: Position, f: Fill)
    requires p.quantity != 0 && p.avg > 0.0 && Positive(f) && (p.quantity > 0) == (Signed(f) > 0)
    ensures var q := p.quantity + Signed(f);
            && q != 0 && p.quantity * q > 0
            && Reaveraged(p.avg, p.quantity, f.price, Signed(f)) == PaperAverage(p.avg, p.quantity, f.price, f.quantity, q)
  {
    var q := p.quantity + Signed(f);
    var total := p.avg * AbsInt(p.quantity) as real + f.price * f.quantity as real;
    ProductSign(p.avg, AbsInt(p.quantity) as real);
    ProductSign(f.price, f.quantity as real);
    if p.quantity > 0 {
      PositiveProduct(p.quantity, q);
      QuotientSigns(total, q as real);
    } else {
      PositiveProduct(-p.quantity, -q);
      QuotientSigns(total, (-q) as real);
      assert p.avg * p.quantity as real + f.price * Signed(f) as real == -total;
    }
  }

  lemma QuotientSigns(x: real, d: real)
    requires x > 0.0 && d > 0.0
    ensures x / d > 0.0 && (-x) / (-d) == x / d
  {
  }

  lemma PositiveProduct(a: int, b: int)
    requires a > 0 && b > 0
    ensures a * b > 0 && (-a) * (-b) > 0
  {
  }

  /** Over any positive fills the paper book holds the portfolio's quantity and average for every symbol. */
  lemma {:induction false} PaperMirrorsPortfolio(fills: seq<Fill>, cash: real, symbol: string)
    requires AllPositive(fills)
    ensures SameEntry(Replay(Book([], cash), fills).positions, PaperReplay(fills), symbol)
  {
    if fills != [] {
      var n := |fills| - 1;
      var f := fills[n];
      PaperMirrorsPortfolio(fills[..n], cash, symbol);
      BookFollowsBasis(fills[..n], cash, symbol);
      var ps, m := Replay(Book([], cash), fills[..n]).positions, PaperReplay(fills[..n]);
      if f.symbol != symbol {
        OthersUntouched(ps, f, symbol);
      } else {
        FilledEntry(ps, f);
        if symbol in m { SameRule(ps[Find(ps, symbol)], f, m); }
      }
    }
  }

  // ------------------------------------------------------------------- the objects

  class PortfolioEngine {
    var positions: seq<Position>
    var balance: real

    ghost function View(): Book
      reads this
    {
      Book(positions, balance)
    }

    constructor (cash: real)
      ensures View() == Book([], cash)
    {
      positions, balance := [], cash;
    }

    /** Returns what the position-updated event reports: quantity and average, or zeros when flat. */
    method OnFilled(f: Fill) returns (quantity: int, avg: real)
      modifies this
      ensures View() == BookAfter(old(View()), f)
      ensures var p := if Find(old(positions), f.symbol) == |old(positions)|
                       then Some(Position(f.symbol, Signed(f), f.price))
                       else Netted(old(positions)[Find(old(positions), f.symbol)], f);
              if p.None? then quantity == 0 && avg == 0.0 else quantity == p.value.quantity && avg == p.value.avg
    {
      var i := Find(positions, f.symbol);
      var qty := Signed(f);
      if i == |positions| {
        positions := positions + [Position(f.symbol, qty, f.price)];
        quantity, avg := qty, f.price;
      } else {
        var p := positions[i];
        var newQty := p.quantity + qty;
        if newQty == 0 {
          positions := positions[..i] + positions[i + 1..];
          quantity, avg := 0, 0.0;
        } else {
          quantity := newQty;
          if (p.quantity > 0) == (qty > 0) {
            avg := Reaveraged(p.avg, p.quantity, f.price, qty);
          } else if p.quantity * newQty < 0 {
            avg := f.price;
          } else {
            avg := p.avg;
          }
          positions := positions[i := Position(p.symbol, newQty, avg)];
        }
      }
      balance := BalanceAfter(balance, f);
    }
  }

  /** The prices a paper order may fill at, in the broker's order of preference; zero means absent. */
  datatype PaperOrder = PaperOrder(symbol: string, side: Side, quantity: int, market: bool, price: real, reference: real)

  /** The chosen price rounded to two decimals, or nothing when no price exists. */
  function PaperPrice(o: PaperOrder, live: real, seeded: Option<real>): Option<real> {
    var p := if !o.market && o.price != 0.0 then Some(o.price)
             else if o.reference > 0.0 then Some(o.reference)
             else if live > 0.0 then Some(live)
             else seeded;
    if p.None? then None else Some(RoundHalfEven(p.value * 100.0) as real / 100.0)
  }

  /** A paper order fills within half a paisa of the first price it has: its limit, its reference, the live or the seeded one. */
  lemma PaperFillsAtFirstPrice(o: PaperOrder, live: real, seeded: Option<real>)
    ensures var p := PaperPrice(o, live, seeded);
            var limited := !o.market && o.price != 0.0;
            && (limited ==> p.Some? && Abs(p.value - o.price) <= 0.005)
            && (!limited && o.reference > 0.0 ==> p.Some? && Abs(p.value - o.reference) <= 0.005)
            && (!limited && o.reference <= 0.0 && live > 0.0 ==> p.Some? && Abs(p.value - live) <= 0.005)
            && (!limited && o.reference <= 0.0 && live <= 0.0 ==>
                  p.Some? == seeded.Some? && (p.Some? ==> Abs(p.value - seeded.value) <= 0.005))
  {
  }

  class PaperBroker {
    var positions: map<string, Holding>
    var orders: nat

    constructor ()
      ensures positions == map[] && orders == 0
    {
      positions, orders := map[], 0;
    }

    /** Fills at once and books the position, or raises (None) and changes nothing when there is no price. */
    method PlaceOrder(o: PaperOrder, live: real, seeded: Option<real>) returns (avg: Option<real>)
      modifies this
      ensures avg == PaperPrice(o, live, seeded)
      ensures avg.None? ==> positions == old(positions) && orders == old(orders)
      ensures avg.Some? ==> orders == old(orders) + 1
      ensures avg.Some? ==> positions == PaperAfter(old(positions), Fill(o.symbol, o.side, o.quantity, avg.value, 0.0))
    {
      avg := PaperPrice(o, live, seeded);
      if avg.None? { return; }
      orders := orders + 1;
      var f := Fill(o.symbol, o.side, o.quantity, avg.value, 0.0);
      var price := f.price;
      var held := o.symbol in positions;
      var qty := (if held then positions[o.symbol].quantity else 0) + Signed(f);
      if qty == 0 {
        positions := positions - {o.symbol};
      } else if !held {
        positions := positions[o.symbol := Holding(qty, price)];
      } else {
        var h := positions[o.symbol];
        var a := h.avg;
        if h.quantity * qty > 0 && AbsInt(qty) > AbsInt(h.quantity) {
          a := PaperAverage(h.avg, h.quantity, price, f.quantity, qty);
        } else if h.quantity * qty < 0 {
          a := price;
        }
        positions := positions[o.symbol := Holding(qty, a)];
      }
    }
  }
}
