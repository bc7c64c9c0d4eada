/**
 * Derivation of the premium the search aims for: the premium type factor applied
 * to the financed total, the installment surcharge table, and the effective target
 * the solver compares against (_get_quote_internal in Backend/CotiCau.py).
 */
module Targets {
  import opened Wrappers

  /** str.upper on one character, for the ASCII letters that decide the premium type. */
  function UpperChar(ch: char): char {
    if 'a' <= ch <= 'z' then (ch as int - 32) as char else ch
  }

  function AsciiUpper(s: string): string {
    seq(|s|, i requires 0 <= i < |s| => UpperChar(s[i]))
  }

  /** (tipo or 'F').upper(): an empty type stands for F. */
  function TypeCode(tipo: string): string {
    if tipo == "" then "F" else AsciiUpper(tipo)
  }

  /** Upper-casing gives the one-letter code of an upper-case letter exactly for that letter in either case. */
  lemma UpperIsLetter(s: string, up: char)
    requires 'A' <= up <= 'Z'
    ensures AsciiUpper(s) == [up] <==> s == [up] || s == [(up as int + 32) as char]
  {
    if AsciiUpper(s) == [up] {
      assert |s| == 1;
      assert AsciiUpper(s)[0] == UpperChar(s[0]) == up;
      if 'a' <= s[0] <= 'z' {
        assert s[0] as int == up as int + 32;
        assert s[0] == (up as int + 32) as char;
      }
      assert s == [s[0]];
    }
    if s == [up] || s == [(up as int + 32) as char] {
      assert AsciiUpper(s)[0] == up;
    }
  }

  /** The target premium before any installment adjustment. */
  function TargetPremio(premioInformado: int, sumaTotal: Option<real>, tipo: string): real {
    if sumaTotal.None? then premioInformado as real
    else
      var t := TypeCode(tipo);
      if t == "F" then sumaTotal.value / 100.0 * 4.3
      else if t == "C" then sumaTotal.value / 100.0 * 4.8
      else if t == "U" then sumaTotal.value / 100.0 * 3.0
      else premioInformado as real
  }

  /**
   * Without a financed total the target is the reported premium; with one, the type
   * (either case, empty meaning F) picks factor 4.3, 4.8 or 3.0 per hundred, and any
   * other type keeps the reported premium.
   */
  lemma TargetRules(premioInformado: int, sumaTotal: Option<real>, tipo: string)
    ensures sumaTotal.None? ==> TargetPremio(premioInformado, sumaTotal, tipo) == premioInformado as real
    ensures sumaTotal.Some? && (tipo == "" || tipo == "F" || tipo == "f") ==>
              TargetPremio(premioInformado, sumaTotal, tipo) == sumaTotal.value / 100.0 * 4.3
    ensures sumaTotal.Some? && (tipo == "C" || tipo == "c") ==>
              TargetPremio(premioInformado, sumaTotal, tipo) == sumaTotal.value / 100.0 * 4.8
    ensures sumaTotal.Some? && (tipo == "U" || tipo == "u") ==>
              TargetPremio(premioInformado, sumaTotal, tipo) == sumaTotal.value / 100.0 * 3.0
    ensures sumaTotal.Some? && !(tipo in {"", "F", "f", "C", "c", "U", "u"}) ==>
              TargetPremio(premioInformado, sumaTotal, tipo) == premioInformado as real
  {
    UpperIsLetter(tipo, 'F');
    UpperIsLetter(tipo, 'C');
    UpperIsLetter(tipo, 'U');
  }

  /** The percentage added to the premium for paying in the given number of installments. */
  function InstallmentPct(cuotas: int): (pct: real)
    ensures pct != 0.0 <==> cuotas == 3 || cuotas == 6 || cuotas == 9 || cuotas == 12
    ensures 0.0 <= pct < 100.0
  {
    if cuotas == 1 then 0.0
    else if cuotas == 3 then 10.07
    else if cuotas == 6 then 15.37
    else if cuotas == 9 then 20.47
    else if cuotas == 12 then 25.87
    else 0.0
  }

  /**
   * aumento_pct: a surcharge applies only when an installment count of 3, 6, 9 or
   * 12 was given, and it is always below 100%.
   */
  function AumentoPct(cuotas: Option<int>): (pct: real)
    ensures 0.0 <= pct < 100.0
    ensures pct != 0.0 <==> cuotas.Some? && cuotas.value in {3, 6, 9, 12}
  {
    if cuotas.None? then 0.0 else InstallmentPct(cuotas.value)
  }

  /**
   * effective_target_premio: the premium to reach before the surcharge, so that the
   * surcharge then lands on the target. It is bound only when an installment count
   * was given; otherwise the name is unbound and its first use raises.
   */
  function EffectiveTargetPremio(target: real, cuotas: Option<int>): (eff: Option<real>)
    ensures eff.None? <==> cuotas.None?
    ensures eff.Some? ==> eff.value * (1.0 + AumentoPct(cuotas) / 100.0) == target
  {
    if cuotas.None? then None
    else
      var pct := InstallmentPct(cuotas.value);
      if pct != 0.0 then Some(target / (1.0 + pct / 100.0)) else Some(target)
  }

  /** With a surcharge and a positive target, the exit test aims strictly below the target. */
  lemma EffectiveBelowTarget(target: real, cuotas: Option<int>)
    requires cuotas.Some? && AumentoPct(cuotas) != 0.0 && target > 0.0
    ensures EffectiveTargetPremio(target, cuotas).value < target
  {
    var f := 1.0 + AumentoPct(cuotas) / 100.0;
    var e := EffectiveTargetPremio(target, cuotas).value;
    assert e * f == target;
    assert f > 1.0;
    assert e > 0.0;
  }
}
