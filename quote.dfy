/**
 * The re-quote handler _get_quote_internal in Backend/CotiCau.py, after the rate
 * search: the final rounding of the last pass, the installment surcharge spread
 * over the components and the taxes, and the QuoteDetails record it answers with.
 */
module Quote {
  import opened Wrappers
  import opened Money
  import opened FeeSchedule
  import opened Targets
  import opened TaxCascade
  import opened RateSearch

  /** The columns of the policy row the handler reads (solici joined with SolRieCob). */
  datatype PolicyRow = PolicyRow(
    tasaAplicada: real,
    sumaAsegurada: real,
    recFinanciero: real,
    recFinancieroPct: real,
    gastosEscribania: real)

  /** The response record. */
  datatype QuoteDetails = QuoteDetails(
    primaTarifa: real,
    bonificacion: real,
    bonificacionPct: real,
    primaNeta: real,
    recAdministrativo: real,
    recAdministrativoPct: real,
    recFinanciero: real,
    recFinancieroPct: real,
    derEmision: real,
    gastosEscribania: real,
    subtotal: real,
    impuestos: real,
    detalleImpuestos: seq<ImpuestoDetalle>,
    premio: real,
    tasaAplicada: real,
    sumaAsegurada: real)

  /**
   * Why the handler fails. All reach the caller as HTTP 500: the 404 for a missing
   * policy is raised inside the try block and re-raised by its catch-all, an empty
   * fee table makes the fee lookup of the first pass index a missing first row,
   * and effective_target_premio is unbound when no installment count was given.
   */
  datatype QuoteError = QuoteNotFound | FeeTableEmpty | EffectiveTargetUnbound

  /** The insured sum used for pricing and reported back: sumaTotal when given, else the stored one. */
  function SumaAseg(row: PolicyRow, sumaTotal: Option<real>): real {
    if sumaTotal.Some? then sumaTotal.value else row.sumaAsegurada
  }

  /** A scaled component: round(x * factor, 2). */
  function Scale(x: real, factor: real): real {
    Round2(x * factor)
  }

  /**
   * The surcharge block: prima, administrative surcharge and fee are scaled by the
   * factor and rounded, the lines are re-linked on their current bases and taxed
   * on the new subtotal, and the lines left at base 0 are all taxed on the
   * intermediate premium. The premium is then the subtotal plus taxes, to the cent.
   */
  method SpreadInstallment(prima: real, recargo: real, der: real, lines: seq<ImpuestoDetalle>, factor: real)
    returns (fin: Iteration)
    ensures fin.prima == Scale(prima, factor) && fin.recargo == Scale(recargo, factor) &&
            fin.der == Scale(der, factor)
    ensures fin.baseImponible == fin.prima + fin.recargo + fin.der && IsCent(fin.baseImponible)
    ensures var rel := Relinked(lines, fin.baseImponible);
              fin.lines == FlatRebased(rel, Round2(fin.baseImponible + SumImportes(rel)))
    ensures |fin.lines| == |lines|
    ensures forall k :: 0 <= k < |lines| ==>
              fin.lines[k].impCod == lines[k].impCod && fin.lines[k].alicuota == lines[k].alicuota
    ensures AllCent(fin.lines) && fin.total == SumImportes(fin.lines) && IsCent(fin.total)
    ensures fin.premio == fin.baseImponible + fin.total
  {
    var p := Scale(prima, factor);
    var r := Scale(recargo, factor);
    var d := Scale(der, factor);
    CentAdd(p, r);
    CentAdd(p + r, d);
    RoundCent(p + r + d);
    var baseImponible := Round2(p - Bonificacion + r + d);
    var out, linkedTotal := RelinkTaxes(lines, baseImponible);
    RelinkedClean(lines, baseImponible);
    SumCent(out);
    RoundCent(linkedTotal);
    var total := Round2(linkedTotal);
    var premio := Round2(baseImponible + total);
    ghost var rel := out;
    out, total := RebaseZeroLines(out, premio, total);
    FlatRebasedSum(rel, premio, out);
    SumCent(out);
    RelinkFlatShape(lines, baseImponible, premio);
    CentAdd(baseImponible, total);
    RoundCent(baseImponible + total);
    premio := Round2(baseImponible + total);
    fin := Iteration(p, r, d, baseImponible, out, total, premio);
  }

  /**
   * The final rounding and the installment surcharge, applied to the last pass of
   * the search. Without a surcharge the rounded base and the pass's taxes give
   * back the pass's own premium; with one, the surcharge block runs on the pass.
   */
  method ApplyInstallment(rows: seq<TaxRow>, it: Iteration, pct: real) returns (fin: Iteration)
    requires Settled(rows, it)
    ensures |fin.lines| == |rows|
    ensures forall k :: 0 <= k < |rows| ==>
              fin.lines[k].impCod == rows[k].impCod && fin.lines[k].alicuota == rows[k].sol2Ali
    ensures AllCent(fin.lines) && fin.total == SumImportes(fin.lines)
    ensures IsCent(fin.baseImponible) && IsCent(fin.total) && fin.premio == fin.baseImponible + fin.total
    ensures pct == 0.0 ==>
              fin.prima == it.prima && fin.recargo == it.recargo && fin.der == it.der &&
              fin.baseImponible == Round2(it.baseImponible) &&
              fin.lines == it.lines && fin.total == it.total && fin.premio == it.premio
    ensures pct != 0.0 ==>
              var f := 1.0 + pct / 100.0;
              fin.prima == Scale(it.prima, f) && fin.recargo == Scale(it.recargo, f) &&
              fin.der == Scale(it.der, f) && fin.baseImponible == fin.prima + fin.recargo + fin.der &&
              var rel := Relinked(it.lines, fin.baseImponible);
              fin.lines == FlatRebased(rel, Round2(fin.baseImponible + SumImportes(rel)))
  {
    var recargo := it.prima * (RecAdminPct / 100.0);
    var baseImponible := Round2(it.prima - Bonificacion + recargo + it.der);
    var premio := Round2(baseImponible + it.total);
    assert recargo == it.recargo && baseImponible == Round2(it.baseImponible);
    if pct != 0.0 {
      fin := SpreadInstallment(it.prima, recargo, it.der, it.lines, 1.0 + pct / 100.0);
    } else {
      RoundShift(it.baseImponible, it.total);
      CentAdd(baseImponible, it.total);
      RoundCent(baseImponible + it.total);
      fin := Iteration(it.prima, recargo, it.der, baseImponible, it.lines, it.total, premio);
    }
  }

  /**
   * The record agrees with the policy row and with itself: fixed bonus and
   * administrative percentage, the row's financial surcharge and notary costs
   * reported but outside the premium, one tax line per tax row, and the premium
   * exactly the subtotal plus the taxes.
   */
  predicate Consistent(rows: seq<TaxRow>, row: PolicyRow, sumaAseg: real, q: QuoteDetails) {
    q.bonificacion == 0.0 && q.bonificacionPct == 0.0 && q.primaNeta == q.primaTarifa &&
    q.recAdministrativoPct == RecAdminPct &&
    q.recFinanciero == Round2(row.recFinanciero) && q.recFinancieroPct == Round2(row.recFinancieroPct) &&
    q.gastosEscribania == row.gastosEscribania && q.sumaAsegurada == sumaAseg &&
    |q.detalleImpuestos| == |rows| &&
    (forall k :: 0 <= k < |rows| ==>
       q.detalleImpuestos[k].impCod == rows[k].impCod && q.detalleImpuestos[k].alicuota == rows[k].sol2Ali) &&
    AllCent(q.detalleImpuestos) && q.impuestos == SumImportes(q.detalleImpuestos) &&
    IsCent(q.subtotal) && IsCent(q.impuestos) && q.premio == q.subtotal + q.impuestos
  }

  /**
   * How the record's amounts follow from the last pass: without a surcharge they
   * are that pass's, rounded; with one, the scaled and rounded components add up
   * to the subtotal and the taxes are the re-linked lines with a flat rebase.
   */
  predicate Priced(it: Iteration, pct: real, q: QuoteDetails) {
    (pct == 0.0 ==>
       q.primaTarifa == Round2(it.prima) && q.recAdministrativo == Round2(it.recargo) &&
       q.derEmision == it.der && q.subtotal == Round2(it.baseImponible) &&
       q.detalleImpuestos == it.lines && q.premio == it.premio) &&
    (pct != 0.0 ==>
       var f := 1.0 + pct / 100.0;
       q.primaTarifa == Scale(it.prima, f) && q.recAdministrativo == Scale(it.recargo, f) &&
       q.derEmision == Scale(it.der, f) &&
       q.subtotal == q.primaTarifa + q.recAdministrativo + q.derEmision &&
       var rel := Relinked(it.lines, q.subtotal);
       q.detalleImpuestos == FlatRebased(rel, Round2(q.subtotal + SumImportes(rel))))
  }

  /**
   * What the search leaves behind: its passes from the stored rate, each priced by
   * the loop body, the last one's values, and the reported rate, which is the last
   * pass's rate when it hit the window and the next midpoint after 100 misses.
   */
  ghost predicate Searched(c: Context, target: real, eff: real, tasaOriginal: real,
                           trace: seq<Pass>, it: Iteration, tasaAplicada: real)
    requires |c.schedule| > 0
  {
    1 <= |trace| <= MaxIter && trace[0].bracket == Start(tasaOriginal) &&
    Chain(target, eff, trace) && Observed(c, trace) &&
    var last := trace[|trace| - 1];
    it == Evaluate(c, last.bracket.actual) && it.premio == last.premio &&
    (Abs(it.premio - eff) <= Tolerance ==> tasaAplicada == last.bracket.actual) &&
    (Abs(it.premio - eff) > Tolerance ==>
       |trace| == MaxIter && tasaAplicada == Bisect(last.bracket, it.premio, target).actual) &&
    (tasaOriginal >= 0.0 ==> 0.0 <= tasaAplicada <= Start(tasaOriginal).hi)
  }

  /**
   * Everything after the search: the final rounding and the surcharge of the last
   * pass, and the response record with the reported rate.
   */
  method Assemble(rows: seq<TaxRow>, row: PolicyRow, sumaAseg: real, it: Iteration, pct: real,
                  tasaAplicada: real)
    returns (q: QuoteDetails)
    requires Settled(rows, it)
    ensures Consistent(rows, row, sumaAseg, q) && Priced(it, pct, q) && q.tasaAplicada == tasaAplicada
  {
    var fin := ApplyInstallment(rows, it, pct);
    RoundCent(fin.baseImponible);
    RoundCent(RecAdminPct);
    if pct != 0.0 {
      RoundCent(fin.prima);
      RoundCent(fin.recargo);
    }
    q := QuoteDetails(
      Round2(fin.prima),
      0.0,
      0.0,
      Round2(fin.prima - 0.0),
      Round2(fin.recargo),
      Round2(RecAdminPct),
      Round2(row.recFinanciero),
      Round2(row.recFinancieroPct),
      fin.der,
      row.gastosEscribania,
      Round2(fin.baseImponible),
      fin.total,
      fin.lines,
      fin.premio,
      tasaAplicada,
      sumaAseg);
  }

  /**
   * The handler once the policy row and the effective target are known: the search
   * from the stored rate, then the assembly of its last pass with the rate the
   * search leaves behind. The ghost trace holds the passes of the search and
   * lastPass the values of the last one.
   */
  method Answer(c: Context, row: PolicyRow, target: real, eff: real, pct: real)
    returns (q: QuoteDetails, ghost trace: seq<Pass>, ghost lastPass: Iteration)
    requires |c.schedule| > 0
    ensures Consistent(c.rows, row, c.sumaAseg, q)
    ensures Priced(lastPass, pct, q)
    ensures Searched(c, target, eff, row.tasaAplicada, trace, lastPass, q.tasaAplicada)
  {
    var it, tasa, final, iterCount;
    it, tasa, final, iterCount, trace := Solve(c, target, eff, row.tasaAplicada);
    lastPass := it;
    EvaluateSettled(c, tasa);
    q := Assemble(c.rows, row, c.sumaAseg, it, pct, final.actual);
  }

  /**
   * _get_quote_internal. The target premium follows from the inputs; a missing
   * policy row fails, then an empty fee table at the first fee lookup, then a
   * missing installment count at the first exit test of the search; otherwise
   * the handler answers. The ghost trace holds the
   * passes of the search and lastPass the values of the last one. Without a
   * surcharge, a search that hit the window answers with a premium within 0.01
   * of the target.
   */
  method GetQuote(schedule: seq<FeeRow>, policy: Option<PolicyRow>, taxRows: seq<TaxRow>,
                  premioInformado: int, dias: int, sumaTotal: Option<real>, tipo: string,
                  cuotas: Option<int>)
    returns (r: Result<QuoteDetails, QuoteError>, ghost trace: seq<Pass>, ghost lastPass: Iteration)
    ensures policy.None? ==> r == Failure(QuoteNotFound)
    ensures policy.Some? && |schedule| == 0 ==> r == Failure(FeeTableEmpty)
    ensures policy.Some? && |schedule| > 0 && cuotas.None? ==> r == Failure(EffectiveTargetUnbound)
    ensures policy.Some? && |schedule| > 0 && cuotas.Some? ==>
              var row := policy.value;
              var sumaAseg := SumaAseg(row, sumaTotal);
              var target := TargetPremio(premioInformado, sumaTotal, tipo);
              var eff := EffectiveTargetPremio(target, cuotas).value;
              r.Success? && Consistent(taxRows, row, sumaAseg, r.value) &&
              Priced(lastPass, AumentoPct(cuotas), r.value) &&
              Searched(Context(schedule, taxRows, sumaAseg, dias), target, eff, row.tasaAplicada,
                       trace, lastPass, r.value.tasaAplicada) &&
              (AumentoPct(cuotas) == 0.0 && Abs(lastPass.premio - eff) <= Tolerance ==>
                 Abs(r.value.premio - target) <= Tolerance)
  {
    var target := TargetPremio(premioInformado, sumaTotal, tipo);
    lastPass := Iteration(0.0, 0.0, 0.0, 0.0, [], 0.0, 0.0);
    trace := [];
    if policy.None? {
      return Failure(QuoteNotFound), trace, lastPass;
    }
    var row := policy.value;
    var sumaAseg := SumaAseg(row, sumaTotal);
    if |schedule| == 0 {
      return Failure(FeeTableEmpty), trace, lastPass;
    }
    var eff := EffectiveTargetPremio(target, cuotas);
    if eff.None? {
      return Failure(EffectiveTargetUnbound), trace, lastPass;
    }
    var pct := AumentoPct(cuotas);
    var q;
    q, trace, lastPass := Answer(Context(schedule, taxRows, sumaAseg, dias), row, target, eff.value, pct);
    r := Success(q);
  }
}
