/** Resource vectors and the sum of the charges held against one node. */
module Resources {

  /** Memory and disk are integer megabytes, CPU is fractional cores. */
  datatype Res = Res(mem: int, disk: int, cpu: real) {
    function Plus(b: Res): Res {
      Res(mem + b.mem, disk + b.disk, cpu + b.cpu)
    }

    function Minus(b: Res): Res {
      Res(mem - b.mem, disk - b.disk, cpu - b.cpu)
    }

    /** GREATEST(0, this - b), column by column. */
    function FloorMinus(b: Res): Res {
      Res(if mem < b.mem then 0 else mem - b.mem,
          if disk < b.disk then 0 else disk - b.disk,
          if cpu < b.cpu then 0.0 else cpu - b.cpu)
    }

    predicate Leq(b: Res) {
      mem <= b.mem && disk <= b.disk && cpu <= b.cpu
    }

    predicate NonNeg() {
      0 <= mem && 0 <= disk && 0.0 <= cpu
    }

    predicate Positive() {
      0 < mem && 0 < disk && 0.0 < cpu
    }
  }

  const ZERO := Res(0, 0, 0.0)

  lemma NothingAdded(s: Res, a: Res, b: Res)
    requires a.NonNeg() && b.NonNeg()
    ensures s == s.Plus(a).Plus(b) <==> a == ZERO && b == ZERO
  {
  }

  lemma FloorAtZero(r: Res, a: Res)
    requires r.NonNeg() && a.Positive()
    ensures r.FloorMinus(a) == r <==> r == ZERO
  {
  }

  /** An amount one holder keeps reserved on a node; a holder that keeps nothing charges `FREE`. */
  datatype Charge = Charge(node: nat, amount: Res) {
    function On(n: nat): Res {
      if node == n then amount else ZERO
    }
  }

  const FREE := Charge(0, ZERO)

  lemma PlusZero(r: Res)
    ensures r.Plus(ZERO) == r && ZERO.Plus(r) == r
  {
  }

  lemma PlusFree(c: Charge, n: nat)
    ensures c.On(n).Plus(FREE.On(n)) == c.On(n) == FREE.On(n).Plus(c.On(n))
  {
    PlusZero(c.On(n));
    assert FREE.On(n) == ZERO;
  }

  ghost predicate AllNonNeg(cs: seq<Charge>) {
    forall k :: 0 <= k < |cs| ==> cs[k].amount.NonNeg()
  }

  /** The sum of the first `k` charges in `cs`, counting those held against node `n`. */
  function Upto(cs: seq<Charge>, n: nat, k: nat): Res
    requires k <= |cs|
  {
    if k == 0 then ZERO else Upto(cs, n, k - 1).Plus(cs[k - 1].On(n))
  }

  /** The sum of all charges in `cs` held against node `n`. */
  function Total(cs: seq<Charge>, n: nat): Res {
    Upto(cs, n, |cs|)
  }

  lemma {:induction false} UptoAgrees(cs: seq<Charge>, ds: seq<Charge>, n: nat, k: nat)
    requires k <= |cs| && k <= |ds|
    requires forall i :: 0 <= i < k ==> cs[i].On(n) == ds[i].On(n)
    ensures Upto(cs, n, k) == Upto(ds, n, k)
  {
    if k != 0 {
      UptoAgrees(cs, ds, n, k - 1);
    }
  }

  lemma PlusPairs(u: Res, a: Res, b: Res, v: Res, c: Res, d: Res)
    requires u == a.Plus(b) && v == c.Plus(d)
    ensures u.Plus(v) == a.Plus(c).Plus(b.Plus(d))
  {
  }

  lemma TotalAppend(cs: seq<Charge>, c: Charge, n: nat)
    ensures Total(cs + [c], n) == Total(cs, n).Plus(c.On(n))
  {
    UptoAgrees(cs, cs + [c], n, |cs|);
  }

  lemma MinusUndoesPlus(x: Res, a: Res, c: Res)
    ensures x.Plus(c) == x.Plus(a).Minus(a).Plus(c)
  {
  }

  lemma MinusCommutes(x: Res, a: Res, c: Res, d: Res)
    ensures x.Minus(a).Plus(c).Plus(d) == x.Plus(d).Minus(a).Plus(c)
  {
  }

  lemma {:induction false} UptoReplace(cs: seq<Charge>, i: nat, c: Charge, n: nat, k: nat)
    requires i < k <= |cs|
    ensures Upto(cs[i := c], n, k) == Upto(cs, n, k).Minus(cs[i].On(n)).Plus(c.On(n))
  {
    if i == k - 1 {
      UptoAgrees(cs, cs[i := c], n, i);
      MinusUndoesPlus(Upto(cs, n, i), cs[i].On(n), c.On(n));
    } else {
      UptoReplace(cs, i, c, n, k - 1);
      MinusCommutes(Upto(cs, n, k - 1), cs[i].On(n), c.On(n), cs[k - 1].On(n));
    }
  }

  lemma TotalReplace(cs: seq<Charge>, i: nat, c: Charge, n: nat)
    requires i < |cs|
    ensures Total(cs[i := c], n) == Total(cs, n).Minus(cs[i].On(n)).Plus(c.On(n))
  {
    UptoReplace(cs, i, c, n, |cs|);
  }

  lemma {:induction false} UptoNonNeg(cs: seq<Charge>, n: nat, k: nat)
    requires AllNonNeg(cs) && k <= |cs|
    ensures Upto(cs, n, k).NonNeg()
  {
    if k != 0 {
      UptoNonNeg(cs, n, k - 1);
    }
  }

  /** One holder's charge never exceeds the total: the reason a release need not be clamped. */
  lemma TotalCovers(cs: seq<Charge>, i: nat)
    requires i < |cs| && AllNonNeg(cs)
    ensures cs[i].amount.Leq(Total(cs, cs[i].node))
  {
    TotalReplace(cs, i, FREE, cs[i].node);
    UptoNonNeg(cs[i := FREE], cs[i].node, |cs|);
  }

  ghost predicate NobodyOn(cs: seq<Charge>, n: nat) {
    forall k :: 0 <= k < |cs| ==> cs[k] == FREE || cs[k].node != n
  }

  lemma {:induction false} UptoNobody(cs: seq<Charge>, n: nat, k: nat)
    requires NobodyOn(cs, n) && k <= |cs|
    ensures Upto(cs, n, k) == ZERO
  {
    if k != 0 {
      UptoNobody(cs, n, k - 1);
      assert cs[k - 1].On(n) == ZERO;
    }
  }

  /** Nobody holds anything on a node exactly when the total there is zero. */
  lemma TotalZero(cs: seq<Charge>, n: nat)
    requires forall k :: 0 <= k < |cs| ==> cs[k].amount.Positive() || cs[k] == FREE
    ensures Total(cs, n) == ZERO <==> NobodyOn(cs, n)
  {
    if NobodyOn(cs, n) {
      UptoNobody(cs, n, |cs|);
    } else {
      var k :| 0 <= k < |cs| && cs[k] != FREE && cs[k].node == n;
      TotalCovers(cs, k);
    }
  }
}
