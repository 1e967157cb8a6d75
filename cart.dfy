/**
 * The cart engine: a cart is a list of (name, category) lines, one per click on
 * "Add to Cart". `Counter` groups the lines, each group is priced against the
 * live inventory, and totals are summed over the groups that still resolve.
 */
module Cart {
  import opened Wrappers
  import opened Catalog

  /** One `{'name': ..., 'category': ...}` entry of `cart['items']`. */
  datatype CartLine = CartLine(name: string, category: string)

  /** One `((name, category), cnt)` pair of `Counter(...).items()`. */
  datatype Group = Group(line: CartLine, count: nat)

  /** `counts[line] += 1` on an insertion-ordered counter: the line's group grows, or a new
      group is appended after all existing ones. */
  function Bump(gs: seq<Group>, l: CartLine): seq<Group>
  {
    if gs == [] then [Group(l, 1)]
    else if gs[0].line == l then [Group(l, gs[0].count + 1)] + gs[1..]
    else [gs[0]] + Bump(gs[1..], l)
  }

  /** `Counter((item['name'], item['category']) for item in items)`. */
  function Tally(lines: seq<CartLine>): seq<Group>
  {
    if lines == [] then [] else Bump(Tally(lines[..|lines| - 1]), lines[|lines| - 1])
  }

  /** The group keys, in order. */
  function Keys(gs: seq<Group>): seq<CartLine> {
    seq(|gs|, i requires 0 <= i < |gs| => gs[i].line)
  }

  /** The counter's value for `k` (0 when absent). */
  function CountOf(gs: seq<Group>, k: CartLine): nat {
    if gs == [] then 0 else if gs[0].line == k then gs[0].count else CountOf(gs[1..], k)
  }

  function SumCounts(gs: seq<Group>): nat {
    if gs == [] then 0 else gs[0].count + SumCounts(gs[1..])
  }

  predicate Distinct(gs: seq<Group>) {
    forall i, j :: 0 <= i < j < |gs| ==> gs[i].line != gs[j].line
  }

  /** Index of the first occurrence of `x` in `s`. */
  function FirstIndex(s: seq<CartLine>, x: CartLine): (k: nat)
    requires x in s
    ensures k < |s| && s[k] == x && x !in s[..k]
  {
    if s[0] == x then 0 else 1 + FirstIndex(s[1..], x)
  }

  lemma {:induction false} FirstIndexSnoc(s: seq<CartLine>, y: CartLine, x: CartLine)
    requires x in s + [y]
    ensures FirstIndex(s + [y], x) == if x in s then FirstIndex(s, x) else |s|
  {
    if s != [] && s[0] != x {
      assert (s + [y])[1..] == s[1..] + [y];
      FirstIndexSnoc(s[1..], y, x);
    }
  }

  lemma {:induction false} BumpKeys(gs: seq<Group>, l: CartLine)
    ensures Keys(Bump(gs, l)) == if l in Keys(gs) then Keys(gs) else Keys(gs) + [l]
  {
    if gs == [] {
    } else if gs[0].line == l {
      assert Keys(gs)[0] == l;
      assert Keys(Bump(gs, l)) == Keys(gs);
    } else {
      BumpKeys(gs[1..], l);
      assert Keys(gs) == [gs[0].line] + Keys(gs[1..]);
      assert Keys(Bump(gs, l)) == [gs[0].line] + Keys(Bump(gs[1..], l));
    }
  }

  lemma {:induction false} BumpCount(gs: seq<Group>, l: CartLine, k: CartLine)
    ensures CountOf(Bump(gs, l), k) == CountOf(gs, k) + if k == l then 1 else 0
  {
    if gs != [] && gs[0].line != l {
      BumpCount(gs[1..], l, k);
    }
  }

  lemma {:induction false} BumpSum(gs: seq<Group>, l: CartLine)
    ensures SumCounts(Bump(gs, l)) == SumCounts(gs) + 1
  {
    if gs != [] && gs[0].line != l {
      BumpSum(gs[1..], l);
    }
  }

  /** The lines of a tally are the distinct cart lines, in the order of their first occurrence. */
  lemma {:induction false} TallyKeys(lines: seq<CartLine>)
    ensures var ks := Keys(Tally(lines));
      (forall l :: l in ks <==> l in lines) &&
      (forall i, j :: 0 <= i < j < |ks| ==> FirstIndex(lines, ks[i]) < FirstIndex(lines, ks[j]))
  {
    if lines != [] {
      var init, last := lines[..|lines| - 1], lines[|lines| - 1];
      assert lines == init + [last];
      TallyKeys(init);
      var ks0 := Keys(Tally(init));
      BumpKeys(Tally(init), last);
      var ks := Keys(Tally(lines));
      forall i, j | 0 <= i < j < |ks| ensures FirstIndex(lines, ks[i]) < FirstIndex(lines, ks[j]) {
        FirstIndexSnoc(init, last, ks[i]);
        FirstIndexSnoc(init, last, ks[j]);
        if j < |ks0| {
          assert ks[i] == ks0[i] && ks[j] == ks0[j];
        } else {
          assert ks[i] == ks0[i] && ks[j] == last && last !in init;
        }
      }
    }
  }

  /** No two groups of a tally share a line. */
  lemma TallyDistinct(lines: seq<CartLine>)
    ensures Distinct(Tally(lines))
  {
    var gs := Tally(lines);
    TallyKeys(lines);
    var ks := Keys(gs);
    forall i, j | 0 <= i < j < |gs| ensures gs[i].line != gs[j].line {
      assert ks[i] == gs[i].line && ks[j] == gs[j].line;
      assert FirstIndex(lines, ks[i]) < FirstIndex(lines, ks[j]);
    }
  }

  /** The counter's value for every line is its number of occurrences in the cart. */
  lemma {:induction false} TallyCounts(lines: seq<CartLine>, k: CartLine)
    ensures CountOf(Tally(lines), k) == multiset(lines)[k]
  {
    if lines != [] {
      var init, last := lines[..|lines| - 1], lines[|lines| - 1];
      assert lines == init + [last];
      TallyCounts(init, k);
      BumpCount(Tally(init), last, k);
    }
  }

  /** The group counts add up to the cart's length. */
  lemma {:induction false} TallySum(lines: seq<CartLine>)
    ensures SumCounts(Tally(lines)) == |lines|
  {
    if lines != [] {
      TallySum(lines[..|lines| - 1]);
      BumpSum(Tally(lines[..|lines| - 1]), lines[|lines| - 1]);
    }
  }

  lemma {:induction false} CountOfDistinct(gs: seq<Group>, i: nat)
    requires Distinct(gs) && i < |gs|
    ensures CountOf(gs, gs[i].line) == gs[i].count
  {
    if i > 0 {
      assert gs[0].line != gs[i].line;
      assert gs[1..][i - 1] == gs[i];
      CountOfDistinct(gs[1..], i - 1);
    }
  }

  /** Each group of a tally carries its line's number of occurrences in the cart. */
  lemma GroupCountIsOccurrences(lines: seq<CartLine>, i: nat)
    requires i < |Tally(lines)|
    ensures Tally(lines)[i].count == multiset(lines)[Tally(lines)[i].line] > 0
  {
    var gs := Tally(lines);
    TallyDistinct(lines);
    CountOfDistinct(gs, i);
    TallyCounts(lines, gs[i].line);
    TallyKeys(lines);
    assert Keys(gs)[i] == gs[i].line;
    assert gs[i].line in lines;
  }

  /** The live price of a line, `None` when its category or name is gone from the inventory. */
  function PriceOf(inv: Inventory, l: CartLine): Option<real> {
    if Has(inv, l.category, l.name) then Some(inv[l.category][l.name].price) else None
  }

  predicate Resolved(inv: Inventory, g: Group) {
    PriceOf(inv, g.line).Some?
  }

  /** What one group adds to the total: price times count, or nothing when unresolved. */
  function Subtotal(inv: Inventory, g: Group): real {
    match PriceOf(inv, g.line)
    case Some(p) => p * g.count as real
    case None => 0.0
  }

  /** The cart total of ShopBot.py:518-521 and :597-600, over groups. */
  function GroupTotal(inv: Inventory, gs: seq<Group>): real {
    if gs == [] then 0.0 else Subtotal(inv, gs[0]) + GroupTotal(inv, gs[1..])
  }

  /** A reference total: every cart line at its live price, unresolved lines at zero. */
  function LineTotal(inv: Inventory, lines: seq<CartLine>): real {
    if lines == [] then 0.0
    else
      var last := lines[|lines| - 1];
      LineTotal(inv, lines[..|lines| - 1]) + match PriceOf(inv, last) case Some(p) => p case None => 0.0
  }

  lemma {:induction false} GroupTotalSnoc(inv: Inventory, gs: seq<Group>, g: Group)
    ensures GroupTotal(inv, gs + [g]) == GroupTotal(inv, gs) + Subtotal(inv, g)
  {
    if gs != [] {
      assert (gs + [g])[1..] == gs[1..] + [g];
      GroupTotalSnoc(inv, gs[1..], g);
    }
  }

  lemma {:induction false} BumpTotal(inv: Inventory, gs: seq<Group>, l: CartLine)
    ensures GroupTotal(inv, Bump(gs, l)) == GroupTotal(inv, gs) + match PriceOf(inv, l) case Some(p) => p case None => 0.0
  {
    if gs == [] {
    } else if gs[0].line == l {
      assert Bump(gs, l)[1..] == gs[1..];
      if PriceOf(inv, l).Some? {
        var p, c := PriceOf(inv, l).value, gs[0].count as real;
        assert p * (c + 1.0) == p * c + p;
      }
    } else {
      assert Bump(gs, l)[1..] == Bump(gs[1..], l);
      BumpTotal(inv, gs[1..], l);
    }
  }

  /** Pricing the groups is pricing every line: grouping neither loses nor double-counts a line. */
  lemma {:induction false} TallyTotal(inv: Inventory, lines: seq<CartLine>)
    ensures GroupTotal(inv, Tally(lines)) == LineTotal(inv, lines)
  {
    if lines != [] {
      TallyTotal(inv, lines[..|lines| - 1]);
      BumpTotal(inv, Tally(lines[..|lines| - 1]), lines[|lines| - 1]);
    }
  }

  /** One line of the cart view: priced, or "no longer exists". */
  datatype ViewLine = Listed(name: string, category: string, count: nat, price: real) | Gone(name: string, category: string)

  function ViewOf(inv: Inventory, g: Group): ViewLine {
    match PriceOf(inv, g.line)
    case Some(p) => Listed(g.line.name, g.line.category, g.count, p)
    case None => Gone(g.line.name, g.line.category)
  }

  /** The loop of `ViewCartButton.callback` (ShopBot.py:518-524): one view line per group, in
      group order, and the total over the groups that resolve. */
  method Describe(inv: Inventory, gs: seq<Group>) returns (desc: seq<ViewLine>, total: real)
    ensures |desc| == |gs|
    ensures forall i :: 0 <= i < |gs| ==> desc[i] == ViewOf(inv, gs[i])
    ensures total == GroupTotal(inv, gs)
  {
    desc, total := [], 0.0;
    var i := 0;
    while i < |gs|
      invariant 0 <= i <= |gs|
      invariant |desc| == i
      invariant forall j :: 0 <= j < i ==> desc[j] == ViewOf(inv, gs[j])
      invariant total == GroupTotal(inv, gs[..i])
    {
      var g := gs[i];
      assert gs[..i + 1] == gs[..i] + [g];
      GroupTotalSnoc(inv, gs[..i], g);
      if Has(inv, g.line.category, g.line.name) {
        var price := inv[g.line.category][g.line.name].price;
        total := total + price * g.count as real;
        desc := desc + [Listed(g.line.name, g.line.category, g.count, price)];
      } else {
        desc := desc + [Gone(g.line.name, g.line.category)];
      }
      i := i + 1;
    }
    assert gs[..i] == gs;
  }

  /** One receipt line, `f"{cnt}x {name} @ ${price:.2f}"`. */
  datatype ReceiptLine = ReceiptLine(count: nat, name: string, price: real)

  /** Result of pricing an order: the first group that no longer resolves, or the receipt lines. */
  datatype Pricing = Stale(line: CartLine) | Priced(lines: seq<ReceiptLine>, total: real)

  function Quantity(rs: seq<ReceiptLine>): nat {
    if rs == [] then 0 else rs[0].count + Quantity(rs[1..])
  }

  /** The loop of `ConfirmOrderButton.callback` (ShopBot.py:597-607): stops at the first
      unresolved group, otherwise one receipt line per group and the total. */
  method PriceOrder(inv: Inventory, gs: seq<Group>) returns (r: Pricing)
    ensures r.Stale? <==> exists i :: 0 <= i < |gs| && !Resolved(inv, gs[i])
    ensures r.Stale? ==> (exists i :: 0 <= i < |gs| && gs[i].line == r.line && !Resolved(inv, gs[i]) &&
                                      (forall j :: 0 <= j < i ==> Resolved(inv, gs[j])))
    ensures r.Priced? ==> |r.lines| == |gs| && r.total == GroupTotal(inv, gs)
    ensures r.Priced? ==> forall i :: 0 <= i < |gs| ==>
      r.lines[i] == ReceiptLine(gs[i].count, gs[i].line.name, PriceOf(inv, gs[i].line).value)
  {
    var lines: seq<ReceiptLine> := [];
    var total := 0.0;
    var i := 0;
    while i < |gs|
      invariant 0 <= i <= |gs|
      invariant |lines| == i
      invariant forall j :: 0 <= j < i ==> Resolved(inv, gs[j])
      invariant forall j :: 0 <= j < i ==>
        lines[j] == ReceiptLine(gs[j].count, gs[j].line.name, PriceOf(inv, gs[j].line).value)
      invariant total == GroupTotal(inv, gs[..i])
    {
      var g := gs[i];
      if Has(inv, g.line.category, g.line.name) {
        var price := inv[g.line.category][g.line.name].price;
        assert gs[..i + 1] == gs[..i] + [g];
        GroupTotalSnoc(inv, gs[..i], g);
        total := total + price * g.count as real;
        lines := lines + [ReceiptLine(g.count, g.line.name, price)];
      } else {
        return Stale(g.line);
      }
      i := i + 1;
    }
    assert gs[..i] == gs;
    return Priced(lines, total);
  }

  /** Receipt lines that copy the group counts add up to the groups' total count. */
  lemma {:induction false} QuantityOfGroups(rs: seq<ReceiptLine>, gs: seq<Group>)
    requires |rs| == |gs| && forall i :: 0 <= i < |gs| ==> rs[i].count == gs[i].count
    ensures Quantity(rs) == SumCounts(gs)
  {
    if rs != [] {
      QuantityOfGroups(rs[1..], gs[1..]);
    }
  }
}
