/**
 * The rate bisection of _get_quote_internal in Backend/CotiCau.py: every pass
 * prices the current rate (tariff premium, 15% administrative surcharge, emission
 * fee, taxable base, tax lines, rounded premium), stops when the premium is within
 * 0.01 of the effective target, and otherwise halves the rate bracket.
 */
module RateSearch {
  import opened Money
  import opened FeeSchedule
  import opened TaxCascade

  const MaxIter: nat := 100
  const Tolerance: real := 0.01
  /** rec_admin_pct, forced to 15 whatever the policy row says. */
  const RecAdminPct: real := 15.0
  /** bonificacion, forced to 0 whatever the policy row says. */
  const Bonificacion: real := 0.0

  /** What the search holds fixed: the fee table, the tax rows, the insured sum and the days of cover. */
  datatype Context = Context(schedule: seq<FeeRow>, rows: seq<TaxRow>, sumaAseg: real, dias: int)

  /** The values one pass computes for a rate. */
  datatype Iteration = Iteration(
    prima: real,
    recargo: real,
    der: real,
    baseImponible: real,
    lines: seq<ImpuestoDetalle>,
    total: real,
    premio: real)

  /** prima_tarifa: the rate is per mille of the insured sum per year, prorated by days. */
  function PrimaTarifa(tasa: real, sumaAseg: real, dias: int): real {
    tasa * sumaAseg / 1000.0 / 365.0 * dias as real
  }

  /** One pass of the loop body for a given rate. */
  function Evaluate(c: Context, tasa: real): Iteration
    requires |c.schedule| > 0
  {
    var prima := PrimaTarifa(tasa, c.sumaAseg, c.dias);
    var recargo := prima * (RecAdminPct / 100.0);
    var der := FeeFor(c.schedule, prima);
    var baseImponible := prima - Bonificacion + recargo + der;
    var linked := LinkRows(c.rows, baseImponible);
    var lines := Cascade(linked, Round2(SumImportes(linked)) + baseImponible);
    var total := Round2(SumImportes(lines));
    Iteration(prima, recargo, der, baseImponible, lines, total, Round2(baseImponible + total))
  }

  /**
   * The values of a pass agree with each other as the loop body leaves them: the
   * 15% surcharge and the taxable base, one tax line per tax row in row order with
   * the row's code and rate, all amounts in cents, a tax total that is exactly
   * their sum, and the premium as the rounded base plus taxes.
   */
  predicate Settled(rows: seq<TaxRow>, it: Iteration) {
    it.recargo == it.prima * (RecAdminPct / 100.0) &&
    it.baseImponible == it.prima - Bonificacion + it.recargo + it.der &&
    |it.lines| == |rows| &&
    (forall k :: 0 <= k < |rows| ==>
       it.lines[k].impCod == rows[k].impCod && it.lines[k].alicuota == rows[k].sol2Ali) &&
    AllCent(it.lines) && it.total == SumImportes(it.lines) && IsCent(it.total) &&
    it.premio == Round2(it.baseImponible + it.total)
  }

  /** Every pass is settled: its tax total needs no further rounding. */
  lemma EvaluateSettled(c: Context, tasa: real)
    requires |c.schedule| > 0
    ensures Settled(c.rows, Evaluate(c, tasa))
  {
    var it := Evaluate(c, tasa);
    var linked := LinkRows(c.rows, it.baseImponible);
    var start := Round2(SumImportes(linked)) + it.baseImponible;
    assert it.lines == Cascade(linked, start);
    LinkRowsClean(c.rows, it.baseImponible);
    CascadeShape(linked, start, it.lines);
    CascadeCent(linked, start);
    SumCent(it.lines);
    RoundCent(SumImportes(it.lines));
  }

  // ---------------------------------------------------------------------------
  // The rate bracket

  /** tasa_min, tasa_actual and tasa_max. */
  datatype Bracket = Bracket(lo: real, actual: real, hi: real)

  /** The bracket before the first pass. */
  function Start(tasaOriginal: real): Bracket {
    Bracket(0.0, tasaOriginal, Max(tasaOriginal * 10.0, 1000.0))
  }

  /**
   * The update after a pass that missed: a premium below the (undivided) target
   * raises tasa_min to the current rate, otherwise tasa_max falls to it; the new
   * rate is the midpoint towards the other bound.
   */
  function Bisect(b: Bracket, premio: real, target: real): Bracket {
    if premio < target then Bracket(b.actual, (b.actual + b.hi) / 2.0, b.hi)
    else Bracket(b.lo, (b.actual + b.lo) / 2.0, b.actual)
  }

  predicate Ordered(b: Bracket) {
    b.lo <= b.actual <= b.hi
  }

  function Width(b: Bracket): real {
    b.hi - b.lo
  }

  function Pow2(n: nat): real {
    if n == 0 then 1.0 else 2.0 * Pow2(n - 1)
  }

  /**
   * One update keeps the bracket ordered inside the old one, never widens it, and
   * leaves the rate at the midpoint; from a midpoint it halves the width.
   */
  lemma BisectNarrows(b: Bracket, premio: real, target: real)
    requires Ordered(b)
    ensures var n := Bisect(b, premio, target);
      Ordered(n) && b.lo <= n.lo && n.hi <= b.hi && Width(n) <= Width(b) &&
      n.actual == (n.lo + n.hi) / 2.0 &&
      (b.actual == (b.lo + b.hi) / 2.0 ==> Width(n) * 2.0 == Width(b)) &&
      (premio < target ==> n.lo == b.actual && n.actual >= b.actual) &&
      (premio >= target ==> n.hi == b.actual && n.actual <= b.actual)
  {
  }

  /** With a non-negative starting rate the first bracket is ordered. */
  lemma StartOrdered(tasaOriginal: real)
    requires tasaOriginal >= 0.0
    ensures Ordered(Start(tasaOriginal)) && Start(tasaOriginal).lo == 0.0
  {
  }

  /**
   * The direction of an update compares with the undivided target: a premium above
   * the exit window around the effective target but below the target still misses
   * and raises the rate.
   */
  lemma OvershootKeepsRising(b: Bracket, premio: real, target: real, eff: real)
    requires Ordered(b) && eff + Tolerance < premio < target
    ensures Abs(premio - eff) > Tolerance
    ensures Bisect(b, premio, target).lo == b.actual && Bisect(b, premio, target).actual >= b.actual
  {
  }

  // ---------------------------------------------------------------------------
  // The passes the loop goes through

  /** One pass of the loop: the bracket it starts from and the premium it computes. */
  datatype Pass = Pass(bracket: Bracket, premio: real)

  /**
   * Every pass but the last missed the exit window around the effective target,
   * and the next pass starts from the update that miss makes.
   */
  predicate Chain(target: real, eff: real, trace: seq<Pass>) {
    forall i :: 0 <= i < |trace| - 1 ==>
      Abs(trace[i].premio - eff) > Tolerance &&
      trace[i + 1].bracket == Bisect(trace[i].bracket, trace[i].premio, target)
  }

  /** Every recorded premium is the one the loop body computes for the pass's rate. */
  ghost predicate Observed(c: Context, trace: seq<Pass>)
    requires |c.schedule| > 0
  {
    forall i {:trigger Evaluate(c, trace[i].bracket.actual)} :: 0 <= i < |trace| ==>
      trace[i].premio == Evaluate(c, trace[i].bracket.actual).premio
  }

  lemma HalvedWidth(w: real, w0: real, n: nat)
    requires w * 2.0 == w0
    ensures w * Pow2(n + 1) == w0 * Pow2(n)
  {
    assert Pow2(n + 1) == 2.0 * Pow2(n);
  }

  /**
   * Along a chain from an ordered bracket, every bracket stays ordered inside the
   * first, the rate sits at the midpoint after the first update, and the n-th
   * bracket (n >= 1) is at most the first width divided by 2^(n-1).
   */
  lemma {:induction false} ChainNarrows(target: real, eff: real, trace: seq<Pass>, n: nat)
    requires n < |trace| && Chain(target, eff, trace) && Ordered(trace[0].bracket)
    ensures var b := trace[n].bracket;
      Ordered(b) && trace[0].bracket.lo <= b.lo && b.hi <= trace[0].bracket.hi &&
      (n > 0 ==> b.actual == (b.lo + b.hi) / 2.0 && Width(b) * Pow2(n - 1) <= Width(trace[0].bracket))
  {
    if n > 0 {
      ChainNarrows(target, eff, trace, n - 1);
      var prev := trace[n - 1];
      assert trace[n].bracket == Bisect(prev.bracket, prev.premio, target);
      BisectNarrows(prev.bracket, prev.premio, target);
      if n > 1 {
        HalvedWidth(Width(trace[n].bracket), Width(prev.bracket), n - 2);
      }
    }
  }

  /** A pass that starts from the update of the last miss extends a chain. */
  lemma ChainSnoc(target: real, eff: real, trace: seq<Pass>, pass: Pass)
    requires Chain(target, eff, trace)
    requires |trace| > 0 ==>
               var last := trace[|trace| - 1];
               Abs(last.premio - eff) > Tolerance && pass.bracket == Bisect(last.bracket, last.premio, target)
    ensures Chain(target, eff, trace + [pass])
  {
    var next := trace + [pass];
    forall i | 0 <= i < |next| - 1
      ensures Abs(next[i].premio - eff) > Tolerance &&
              next[i + 1].bracket == Bisect(next[i].bracket, next[i].premio, target)
    {
      assert next[i] == trace[i];
    }
  }

  /** A pass priced by the loop body extends an observed trace. */
  lemma ObservedSnoc(c: Context, trace: seq<Pass>, pass: Pass)
    requires |c.schedule| > 0 && Observed(c, trace)
    requires pass.premio == Evaluate(c, pass.bracket.actual).premio
    ensures Observed(c, trace + [pass])
  {
    var next := trace + [pass];
    assert forall i :: 0 <= i < |trace| ==> next[i] == trace[i];
  }

  /** The loop body up to the exit test: prices one rate as the source does, line by line. */
  method PricePass(c: Context, tasa: real) returns (it: Iteration)
    requires |c.schedule| > 0
    ensures it == Evaluate(c, tasa)
  {
    var prima := PrimaTarifa(tasa, c.sumaAseg, c.dias);
    var recargo := prima * (RecAdminPct / 100.0);
    var der := FeeFor(c.schedule, prima);
    var baseImponible := prima - Bonificacion + recargo + der;
    var linked := LinkTaxes(c.rows, baseImponible);
    var lines, total := ApplyCascade(linked, baseImponible);
    var premio := Round2(baseImponible + total);
    it := Iteration(prima, recargo, der, baseImponible, lines, total, premio);
  }

  /**
   * From a non-negative starting rate, the bracket of every pass and the update
   * after it stay ordered within [0, Start.hi], and hold the pass's rate.
   */
  lemma TraceBounds(target: real, eff: real, tasaOriginal: real, trace: seq<Pass>)
    requires tasaOriginal >= 0.0 && |trace| > 0
    requires trace[0].bracket == Start(tasaOriginal) && Chain(target, eff, trace)
    ensures var last := trace[|trace| - 1];
      var n := Bisect(last.bracket, last.premio, target);
      Ordered(last.bracket) && 0.0 <= last.bracket.lo && last.bracket.hi <= Start(tasaOriginal).hi &&
      Ordered(n) && 0.0 <= n.lo && n.hi <= Start(tasaOriginal).hi && n.lo <= last.bracket.actual <= n.hi
  {
    StartOrdered(tasaOriginal);
    var last := trace[|trace| - 1];
    ChainNarrows(target, eff, trace, |trace| - 1);
    BisectNarrows(last.bracket, last.premio, target);
  }

  /**
   * The bisection loop. It returns the values of its last pass (it, for the rate
   * tasa), the bracket it leaves behind (final; its actual is the reported rate),
   * the number of misses counted by iter_count, and, as a ghost, every pass.
   */
  method Solve(c: Context, target: real, eff: real, tasaOriginal: real)
    returns (it: Iteration, tasa: real, final: Bracket, iterCount: nat, ghost trace: seq<Pass>)
    requires |c.schedule| > 0
    ensures iterCount <= MaxIter
    ensures |trace| == (if iterCount < MaxIter then iterCount + 1 else MaxIter)
    ensures trace[0].bracket == Start(tasaOriginal) && Chain(target, eff, trace) && Observed(c, trace)
    ensures var last := trace[|trace| - 1];
              tasa == last.bracket.actual && it == Evaluate(c, tasa) && it.premio == last.premio
    ensures iterCount < MaxIter <==> Abs(it.premio - eff) <= Tolerance
    ensures iterCount < MaxIter ==> final == trace[|trace| - 1].bracket
    ensures iterCount == MaxIter ==> final == Bisect(trace[|trace| - 1].bracket, it.premio, target)
    ensures tasaOriginal >= 0.0 ==>
              0.0 <= final.lo <= final.actual <= final.hi <= Start(tasaOriginal).hi &&
              final.lo <= tasa <= final.hi
  {
    var b := Start(tasaOriginal);
    ghost var tr: seq<Pass> := [];
    iterCount := 0;
    // placeholders: the loop always runs its first pass, which overwrites both
    tasa := b.actual;
    it := Iteration(0.0, 0.0, 0.0, 0.0, [], 0.0, 0.0);
    while iterCount < MaxIter
      invariant iterCount <= MaxIter && |tr| == iterCount
      invariant Chain(target, eff, tr) && Observed(c, tr)
      invariant iterCount == 0 ==> b == Start(tasaOriginal)
      invariant iterCount > 0 ==>
                  var last := tr[iterCount - 1];
                  tr[0].bracket == Start(tasaOriginal) && Abs(last.premio - eff) > Tolerance &&
                  b == Bisect(last.bracket, last.premio, target) &&
                  tasa == last.bracket.actual && it == Evaluate(c, tasa) && it.premio == last.premio
    {
      it := PricePass(c, b.actual);
      tasa := b.actual;
      var premio := it.premio;
      ghost var pass := Pass(b, premio);
      ChainSnoc(target, eff, tr, pass);
      ObservedSnoc(c, tr, pass);
      tr := tr + [pass];
      if Abs(premio - eff) <= Tolerance {
        break;
      }

      // bisect on the undivided target
      if premio < target {
        b := Bracket(b.actual, (b.actual + b.hi) / 2.0, b.hi);
      } else {
        b := Bracket(b.lo, (b.actual + b.lo) / 2.0, b.actual);
      }
      iterCount := iterCount + 1;
    }
    final := b;
    trace := tr;
    if tasaOriginal >= 0.0 {
      TraceBounds(target, eff, tasaOriginal, trace);
    }
  }
}
