/**
 * The tax lines of a quote (ImpuestoDetalle) and the passes of _get_quote_internal
 * in Backend/CotiCau.py that build and rebase them: the linking pass over the tax
 * rows, the cascade that rebases zero-base lines on a growing running total, and,
 * for the installment surcharge, the re-linking pass and the flat rebase.
 */
module TaxCascade {
  import opened Money

  /** A tax row of the application (ImpCod, Sol2Base, Sol2Ali); Sol2Imp is read but never used. */
  datatype TaxRow = TaxRow(impCod: string, sol2Base: real, sol2Ali: real)

  /** One reported tax line. */
  datatype ImpuestoDetalle = ImpuestoDetalle(impCod: string, base: real, alicuota: real, importe: real)

  /** round(base * alicuota / 100.0, 2): a tax at a percentage rate on a base. */
  function TaxAmount(base: real, alicuota: real): real {
    Round2(base * alicuota / 100.0)
  }

  // ---------------------------------------------------------------------------
  // The reference base (base_ori)

  /** base_ori after a left-to-right scan of the given bases, starting from 0. */
  function RefBase(bases: seq<real>): real
    decreases |bases|
  {
    if |bases| == 0 then 0.0
    else
      var r := RefBase(bases[..|bases| - 1]);
      var b := bases[|bases| - 1];
      if b == r || r == 0.0 then b else r
  }

  /** Entry k is linked when it equals base_ori as left by the entries before it, or base_ori is still 0. */
  predicate Linked(bases: seq<real>, k: nat)
    requires k < |bases|
  {
    var r := RefBase(bases[..k]);
    bases[k] == r || r == 0.0
  }

  /** The first non-zero base, or 0 when there is none. */
  function FirstNonZero(bases: seq<real>): real {
    if |bases| == 0 then 0.0
    else if bases[0] != 0.0 then bases[0]
    else FirstNonZero(bases[1..])
  }

  lemma {:induction false} FirstNonZeroAppend(s: seq<real>, t: seq<real>)
    ensures FirstNonZero(s + t) == if FirstNonZero(s) != 0.0 then FirstNonZero(s) else FirstNonZero(t)
  {
    if |s| > 0 {
      assert (s + t)[0] == s[0];
      assert (s + t)[1..] == s[1..] + t;
      FirstNonZeroAppend(s[1..], t);
    } else {
      assert s + t == t;
    }
  }

  lemma {:induction false} FirstNonZeroIsZero(s: seq<real>)
    ensures FirstNonZero(s) == 0.0 <==> forall j :: 0 <= j < |s| ==> s[j] == 0.0
  {
    if |s| > 0 {
      FirstNonZeroIsZero(s[1..]);
      if s[0] == 0.0 {
        assert forall j :: 1 <= j < |s| ==> s[j] == s[1..][j - 1];
      }
    }
  }

  /** base_ori is the first non-zero base seen so far. */
  lemma {:induction false} RefBaseIsFirstNonZero(bases: seq<real>)
    ensures RefBase(bases) == FirstNonZero(bases)
  {
    if |bases| > 0 {
      var init := bases[..|bases| - 1];
      var b := bases[|bases| - 1];
      RefBaseIsFirstNonZero(init);
      FirstNonZeroAppend(init, [b]);
      assert init + [b] == bases;
      assert FirstNonZero([b]) == b by {
        assert [b][1..] == [];
      }
    }
  }

  /**
   * An entry is linked exactly when every entry before it is 0, or it equals the
   * first non-zero entry of the whole list.
   */
  lemma LinkedIff(bases: seq<real>, k: nat)
    requires k < |bases|
    ensures Linked(bases, k) <==>
              (forall j :: 0 <= j < k ==> bases[j] == 0.0) || bases[k] == FirstNonZero(bases)
  {
    var pre := bases[..k];
    RefBaseIsFirstNonZero(pre);
    FirstNonZeroIsZero(pre);
    FirstNonZeroAppend(pre, bases[k..]);
    assert pre + bases[k..] == bases;
    assert forall j :: 0 <= j < k ==> pre[j] == bases[j];
    if FirstNonZero(pre) == 0.0 {
      assert bases[k..][0] == bases[k];
      assert bases[k] == 0.0 || FirstNonZero(bases[k..]) == bases[k];
    }
  }

  /** When no base is 0, an entry is linked exactly when it equals the first entry. */
  lemma LinkedWhenNoZeroBases(bases: seq<real>, k: nat)
    requires k < |bases|
    requires forall j :: 0 <= j < |bases| ==> bases[j] != 0.0
    ensures Linked(bases, k) <==> bases[k] == bases[0]
  {
    LinkedIff(bases, k);
    if k > 0 {
      assert bases[0] != 0.0;
    }
  }

  // ---------------------------------------------------------------------------
  // Sums over the tax lines

  /** sum(imp.importe for imp in lines). */
  function SumImportes(lines: seq<ImpuestoDetalle>): real {
    if |lines| == 0 then 0.0 else lines[0].importe + SumImportes(lines[1..])
  }

  lemma {:induction false} SumImportesSnoc(lines: seq<ImpuestoDetalle>, l: ImpuestoDetalle)
    ensures SumImportes(lines + [l]) == SumImportes(lines) + l.importe
  {
    if |lines| == 0 {
      assert [l][1..] == [];
    } else {
      assert (lines + [l])[1..] == lines[1..] + [l];
      SumImportesSnoc(lines[1..], l);
    }
  }

  /** The amounts, in out, of the lines whose base in lines is 0. */
  function RebasedImportes(lines: seq<ImpuestoDetalle>, out: seq<ImpuestoDetalle>): real
    requires |lines| == |out|
  {
    if |lines| == 0 then 0.0
    else (if lines[0].base == 0.0 then out[0].importe else 0.0) + RebasedImportes(lines[1..], out[1..])
  }

  lemma {:induction false} RebasedImportesSnoc(lines: seq<ImpuestoDetalle>, out: seq<ImpuestoDetalle>,
                                              l: ImpuestoDetalle, o: ImpuestoDetalle)
    requires |lines| == |out|
    ensures RebasedImportes(lines + [l], out + [o]) ==
              RebasedImportes(lines, out) + (if l.base == 0.0 then o.importe else 0.0)
  {
    if |lines| == 0 {
      assert [l][1..] == [] && [o][1..] == [];
    } else {
      assert (lines + [l])[1..] == lines[1..] + [l];
      assert (out + [o])[1..] == out[1..] + [o];
      RebasedImportesSnoc(lines[1..], out[1..], l, o);
    }
  }

  /** Every amount is a whole number of cents. */
  predicate AllCent(lines: seq<ImpuestoDetalle>) {
    forall k :: 0 <= k < |lines| ==> IsCent(lines[k].importe)
  }

  /** Lines whose base is 0 carry no amount. */
  predicate ZeroBaseUntaxed(lines: seq<ImpuestoDetalle>) {
    forall k :: 0 <= k < |lines| && lines[k].base == 0.0 ==> lines[k].importe == 0.0
  }

  /** Adding up amounts in cents gives cents, so the final round(…, 2) of a total changes nothing. */
  lemma {:induction false} SumCent(lines: seq<ImpuestoDetalle>)
    requires AllCent(lines)
    ensures IsCent(SumImportes(lines))
  {
    if |lines| > 0 {
      assert AllCent(lines[1..]) by {
        forall k | 0 <= k < |lines[1..]| ensures IsCent(lines[1..][k].importe) {
          assert lines[1..][k] == lines[k + 1];
        }
      }
      SumCent(lines[1..]);
      CentAdd(lines[0].importe, SumImportes(lines[1..]));
    }
  }

  /**
   * When only zero-base lines (which carried no amount) change, the new total is the
   * old total plus the amounts the changed lines now carry.
   */
  lemma {:induction false} SumSplit(lines: seq<ImpuestoDetalle>, out: seq<ImpuestoDetalle>)
    requires |out| == |lines| && ZeroBaseUntaxed(lines)
    requires forall k :: 0 <= k < |lines| && lines[k].base != 0.0 ==> out[k] == lines[k]
    ensures SumImportes(out) == SumImportes(lines) + RebasedImportes(lines, out)
  {
    if |lines| > 0 {
      assert forall k :: 0 <= k < |lines| - 1 ==> lines[1..][k] == lines[k + 1] && out[1..][k] == out[k + 1];
      SumSplit(lines[1..], out[1..]);
    }
  }

  // ---------------------------------------------------------------------------
  // First pass: linking the tax rows to the taxable base

  function Bases(rows: seq<TaxRow>): seq<real> {
    seq(|rows|, k requires 0 <= k < |rows| => rows[k].sol2Base)
  }

  /** The line of one row: linked rows are taxed on the rounded base, the others get base and amount 0. */
  function LinkedLine(row: TaxRow, linked: bool, baseImponible: real): ImpuestoDetalle {
    if linked then
      var b := Round2(baseImponible);
      ImpuestoDetalle(row.impCod, b, row.sol2Ali, TaxAmount(b, row.sol2Ali))
    else
      ImpuestoDetalle(row.impCod, 0.0, row.sol2Ali, 0.0)
  }

  /** The lines the first pass produces, one per row, in row order. */
  function LinkRows(rows: seq<TaxRow>, baseImponible: real): seq<ImpuestoDetalle> {
    seq(|rows|, k requires 0 <= k < |rows| => LinkedLine(rows[k], Linked(Bases(rows), k), baseImponible))
  }

  /** The first pass builds its lines by appending one per row while updating base_ori. */
  method LinkTaxes(rows: seq<TaxRow>, baseImponible: real) returns (lines: seq<ImpuestoDetalle>)
    ensures lines == LinkRows(rows, baseImponible)
    ensures |lines| == |rows|
    ensures forall k :: 0 <= k < |rows| ==>
              lines[k].impCod == rows[k].impCod && lines[k].alicuota == rows[k].sol2Ali
    ensures forall k :: 0 <= k < |rows| && Linked(Bases(rows), k) ==>
              lines[k].base == Round2(baseImponible) &&
              lines[k].importe == TaxAmount(lines[k].base, lines[k].alicuota)
    ensures forall k :: 0 <= k < |rows| && !Linked(Bases(rows), k) ==>
              lines[k].base == 0.0 && lines[k].importe == 0.0
  {
    ghost var bases := Bases(rows);
    lines := [];
    var baseOri := 0.0;
    for i := 0 to |rows|
      invariant |lines| == i
      invariant baseOri == RefBase(bases[..i])
      invariant forall k :: 0 <= k < i ==> lines[k] == LinkedLine(rows[k], Linked(bases, k), baseImponible)
    {
      var r := rows[i];
      assert bases[..i + 1][..i] == bases[..i] && bases[..i + 1][i] == bases[i] == r.sol2Base;
      assert Linked(bases, i) <==> r.sol2Base == baseOri || baseOri == 0.0;
      if r.sol2Base == baseOri || baseOri == 0.0 {
        baseOri := r.sol2Base;
        var impBase := Round2(baseImponible);
        var impImporte := TaxAmount(impBase, r.sol2Ali);
        lines := lines + [ImpuestoDetalle(r.impCod, impBase, r.sol2Ali, impImporte)];
      } else {
        lines := lines + [ImpuestoDetalle(r.impCod, 0.0, r.sol2Ali, 0.0)];
      }
      assert lines[i] == LinkedLine(rows[i], Linked(bases, i), baseImponible);
    }
  }

  /** The first pass leaves every amount in cents and no amount on a zero-base line. */
  lemma LinkRowsClean(rows: seq<TaxRow>, baseImponible: real)
    ensures AllCent(LinkRows(rows, baseImponible)) && ZeroBaseUntaxed(LinkRows(rows, baseImponible))
  {
    var lines := LinkRows(rows, baseImponible);
    RoundZero();
    forall k | 0 <= k < |lines| ensures IsCent(lines[k].importe) {
      assert (0.0 * 100.0).Floor == 0;
    }
  }

  // ---------------------------------------------------------------------------
  // Second pass: the cascade on the running total

  /** A zero-base line rebased on the given amount. */
  function Rebase(l: ImpuestoDetalle, on: real): ImpuestoDetalle {
    l.(base := on, importe := TaxAmount(on, l.alicuota))
  }

  /**
   * The cascade from a running total: each zero-base line, in order, is taxed on the
   * running total, which then grows by that line's amount; other lines are kept.
   */
  function Cascade(lines: seq<ImpuestoDetalle>, running: real): seq<ImpuestoDetalle>
    decreases |lines|
  {
    if |lines| == 0 then []
    else if lines[0].base == 0.0 then
      var l := Rebase(lines[0], running);
      [l] + Cascade(lines[1..], running + l.importe)
    else
      [lines[0]] + Cascade(lines[1..], running)
  }

  /**
   * The cascade keeps one line per input line with its code and rate, rebases only
   * zero-base lines, and leaves lines with a non-zero base untouched.
   */
  lemma {:induction false} CascadeShape(lines: seq<ImpuestoDetalle>, running: real, out: seq<ImpuestoDetalle>)
    requires out == Cascade(lines, running)
    ensures |out| == |lines|
    ensures forall k :: 0 <= k < |lines| ==>
              out[k].impCod == lines[k].impCod && out[k].alicuota == lines[k].alicuota
    ensures forall k :: 0 <= k < |lines| && lines[k].base != 0.0 ==> out[k] == lines[k]
    ensures forall k :: 0 <= k < |lines| && lines[k].base == 0.0 ==>
              out[k].importe == TaxAmount(out[k].base, out[k].alicuota)
    decreases |lines|
  {
    if |lines| > 0 {
      var l0 := if lines[0].base == 0.0 then Rebase(lines[0], running) else lines[0];
      var next := if lines[0].base == 0.0 then running + l0.importe else running;
      var rest := Cascade(lines[1..], next);
      assert out == [l0] + rest;
      CascadeShape(lines[1..], next, rest);
      assert forall k :: 0 < k < |lines| ==> out[k] == rest[k - 1] && lines[k] == lines[1..][k - 1];
    }
  }

  /**
   * Each zero-base line is taxed on the starting total plus the amounts of the
   * zero-base lines before it: the running total grows by exactly those amounts.
   */
  lemma {:induction false} CascadeRunning(lines: seq<ImpuestoDetalle>, running: real, out: seq<ImpuestoDetalle>, k: nat)
    requires out == Cascade(lines, running)
    requires k < |lines| && lines[k].base == 0.0
    ensures |out| == |lines|
    ensures out[k] == Rebase(lines[k], running + RebasedImportes(lines[..k], out[..k]))
    decreases k
  {
    var l0 := if lines[0].base == 0.0 then Rebase(lines[0], running) else lines[0];
    var next := if lines[0].base == 0.0 then running + l0.importe else running;
    var rest := Cascade(lines[1..], next);
    assert out == [l0] + rest;
    if k == 0 {
      CascadeShape(lines, running, out);
    } else {
      CascadeRunning(lines[1..], next, rest, k - 1);
      assert lines[..k][1..] == lines[1..][..k - 1] by {
        forall j | 0 <= j < k - 1 ensures lines[..k][1..][j] == lines[1..][..k - 1][j] {
          assert lines[..k][1..][j] == lines[j + 1];
        }
      }
      assert out[..k][1..] == rest[..k - 1] by {
        forall j | 0 <= j < k - 1 ensures out[..k][1..][j] == rest[..k - 1][j] {
          assert out[..k][1..][j] == out[j + 1] == rest[j];
        }
      }
      assert out[k] == rest[k - 1] && lines[k] == lines[1..][k - 1];
      assert lines[..k][0] == lines[0] && out[..k][0] == l0;
    }
  }

  /** The cascade leaves amounts in cents when they were in cents. */
  lemma CascadeCent(lines: seq<ImpuestoDetalle>, running: real)
    requires AllCent(lines)
    ensures AllCent(Cascade(lines, running))
  {
    CascadeShape(lines, running, Cascade(lines, running));
  }

  /**
   * One step of the cascade from line i: the line is rebased on the running total
   * when its base is 0 (and the total grows by its amount), and kept otherwise.
   */
  lemma CascadeAdvance(lines: seq<ImpuestoDetalle>, start: real, done: seq<ImpuestoDetalle>, i: nat,
                       running: real, imp: ImpuestoDetalle, next: real)
    requires i < |lines| && Cascade(lines, start) == done + Cascade(lines[i..], running)
    requires imp == if lines[i].base == 0.0 then Rebase(lines[i], running) else lines[i]
    requires next == if lines[i].base == 0.0 then running + imp.importe else running
    ensures Cascade(lines, start) == (done + [imp]) + Cascade(lines[i + 1..], next)
  {
    assert lines[i..][0] == lines[i] && lines[i..][1..] == lines[i + 1..];
    assert Cascade(lines[i..], running) == [imp] + Cascade(lines[i + 1..], next);
  }

  /** The cascade runs in place: each zero-base line is rewritten and the running total grows. */
  method ApplyCascade(lines: seq<ImpuestoDetalle>, baseImponible: real)
    returns (out: seq<ImpuestoDetalle>, total: real)
    ensures out == Cascade(lines, Round2(SumImportes(lines)) + baseImponible)
    ensures total == Round2(SumImportes(out))
  {
    var running := Round2(SumImportes(lines)) + baseImponible;
    ghost var start := running;
    out := lines;
    for i := 0 to |out|
      invariant |out| == |lines|
      invariant forall k :: i <= k < |lines| ==> out[k] == lines[k]
      invariant Cascade(lines, start) == out[..i] + Cascade(lines[i..], running)
    {
      ghost var done := out[..i];
      ghost var before := running;
      var imp := out[i];
      if imp.base == 0.0 {
        imp := imp.(base := running);
        imp := imp.(importe := TaxAmount(imp.base, imp.alicuota));
        out := out[i := imp];
        running := running + imp.importe;
      }
      CascadeAdvance(lines, start, done, i, before, imp, running);
      assert out[..i + 1] == done + [imp];
    }
    assert out[..|out|] == out;
    total := Round2(SumImportes(out));
  }

  // ---------------------------------------------------------------------------
  // Installment pass: re-linking on the current bases, then a flat rebase

  function LineBases(lines: seq<ImpuestoDetalle>): seq<real> {
    seq(|lines|, k requires 0 <= k < |lines| => lines[k].base)
  }

  function RelinkedLine(l: ImpuestoDetalle, linked: bool, baseImponible: real): ImpuestoDetalle {
    if linked then l.(base := baseImponible, importe := TaxAmount(baseImponible, l.alicuota))
    else l.(base := 0.0, importe := 0.0)
  }

  /** The re-linking pass: lines linked by their current base are taxed on the new base, the others are zeroed. */
  function Relinked(lines: seq<ImpuestoDetalle>, baseImponible: real): seq<ImpuestoDetalle> {
    seq(|lines|, k requires 0 <= k < |lines| => RelinkedLine(lines[k], Linked(LineBases(lines), k), baseImponible))
  }

  /** Re-linking rewrites the lines in place and adds up the amounts of the linked ones. */
  method RelinkTaxes(lines: seq<ImpuestoDetalle>, baseImponible: real)
    returns (out: seq<ImpuestoDetalle>, total: real)
    ensures out == Relinked(lines, baseImponible)
    ensures total == SumImportes(out)
  {
    ghost var bases := LineBases(lines);
    out := lines;
    total := 0.0;
    var baseOri := 0.0;
    for i := 0 to |out|
      invariant |out| == |lines|
      invariant forall k :: i <= k < |lines| ==> out[k] == lines[k]
      invariant baseOri == RefBase(bases[..i])
      invariant forall k :: 0 <= k < i ==> out[k] == RelinkedLine(lines[k], Linked(bases, k), baseImponible)
      invariant total == SumImportes(out[..i])
    {
      assert out[i] == lines[i];
      assert bases[..i + 1][..i] == bases[..i] && bases[..i + 1][i] == bases[i] == lines[i].base;
      assert Linked(bases, i) <==> lines[i].base == baseOri || baseOri == 0.0;
      var imp := out[i];
      if imp.base == baseOri || baseOri == 0.0 {
        baseOri := imp.base;
        imp := imp.(base := baseImponible);
        imp := imp.(importe := TaxAmount(imp.base, imp.alicuota));
        out := out[i := imp];
        total := total + imp.importe;
      } else {
        imp := imp.(base := 0.0, importe := 0.0);
        out := out[i := imp];
      }
      assert out[..i + 1] == out[..i] + [imp];
      SumImportesSnoc(out[..i], imp);
    }
    assert out[..|out|] == out;
  }

  /** Re-linking leaves every amount in cents and no amount on a zero-base line. */
  lemma RelinkedClean(lines: seq<ImpuestoDetalle>, baseImponible: real)
    ensures AllCent(Relinked(lines, baseImponible)) && ZeroBaseUntaxed(Relinked(lines, baseImponible))
  {
    var out := Relinked(lines, baseImponible);
    RoundZero();
    forall k | 0 <= k < |out| ensures IsCent(out[k].importe) {
      assert (0.0 * 100.0).Floor == 0;
    }
  }

  /** The flat rebase: every zero-base line is taxed on the same amount. */
  function FlatRebased(lines: seq<ImpuestoDetalle>, on: real): seq<ImpuestoDetalle> {
    seq(|lines|, k requires 0 <= k < |lines| => if lines[k].base == 0.0 then Rebase(lines[k], on) else lines[k])
  }

  /** The flat rebase rewrites zero-base lines in place and adds their new amounts to the running total. */
  method RebaseZeroLines(lines: seq<ImpuestoDetalle>, on: real, total0: real)
    returns (out: seq<ImpuestoDetalle>, total: real)
    ensures out == FlatRebased(lines, on)
    ensures total == total0 + RebasedImportes(lines, out)
  {
    out := lines;
    total := total0;
    for i := 0 to |out|
      invariant |out| == |lines|
      invariant forall k :: i <= k < |lines| ==> out[k] == lines[k]
      invariant forall k :: 0 <= k < i ==> out[k] == FlatRebased(lines, on)[k]
      invariant total == total0 + RebasedImportes(lines[..i], out[..i])
    {
      assert out[i] == lines[i];
      var imp := out[i];
      if imp.base == 0.0 {
        imp := imp.(base := on);
        imp := imp.(importe := TaxAmount(imp.base, imp.alicuota));
        out := out[i := imp];
        total := total + imp.importe;
      }
      assert out[i] == imp == FlatRebased(lines, on)[i];
      assert out[..i + 1] == out[..i] + [imp];
      assert lines[..i + 1] == lines[..i] + [lines[i]];
      RebasedImportesSnoc(lines[..i], out[..i], lines[i], imp);
    }
    assert out[..|out|] == out && lines[..|lines|] == lines;
  }

  /**
   * After the flat rebase of re-linked lines, the total is the re-linked total plus
   * the new amounts of the rebased lines, and every amount is still in cents.
   */
  lemma FlatRebasedSum(lines: seq<ImpuestoDetalle>, on: real, out: seq<ImpuestoDetalle>)
    requires out == FlatRebased(lines, on) && AllCent(lines) && ZeroBaseUntaxed(lines)
    ensures SumImportes(out) == SumImportes(lines) + RebasedImportes(lines, out)
    ensures AllCent(out)
  {
    SumSplit(lines, out);
  }

  /**
   * Re-linking on base b and then rebasing on p taxes every line either on b (when
   * it was linked by its current base and b is not 0) or on p, keeping its code and rate.
   */
  lemma RelinkFlatShape(lines: seq<ImpuestoDetalle>, b: real, p: real)
    ensures var out := FlatRebased(Relinked(lines, b), p);
      |out| == |lines| &&
      forall k :: 0 <= k < |lines| ==>
        out[k].impCod == lines[k].impCod && out[k].alicuota == lines[k].alicuota &&
        out[k].base == (if Linked(LineBases(lines), k) && b != 0.0 then b else p) &&
        out[k].importe == TaxAmount(out[k].base, out[k].alicuota)
  {
  }
}
