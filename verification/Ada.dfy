/** Amounts of ADA as text: `formatAda` and `parseAda` of tidy.ts. */
module Ada {
  import opened Wrappers
  import opened Decimal

  const LOVELACE_PER_ADA: nat := 1_000_000

  /** `text.replace(/0+$/, "")` */
  function StripTrailingZeros(s: string): (r: string)
    ensures |r| <= |s| && r == s[..|r|]
    ensures forall i | |r| <= i < |s| :: s[i] == '0'
    ensures r != "" ==> r[|r| - 1] != '0'
  {
    if s != "" && s[|s| - 1] == '0' then StripTrailingZeros(s[..|s| - 1]) else s
  }

  /** `text.padEnd(6, "0")` for a text of at most six characters */
  function PadEnd6(s: string): (r: string)
    requires |s| <= 6
    ensures |r| == 6
    ensures AllDigits(s) ==> AllDigits(r)
  {
    s + Zeros(6 - |s|)
  }

  function FractionOf(rest: nat): (r: string)
  {
    StripTrailingZeros(PadStart(ToDecimal(rest), 6))
  }

  function Fraction(lovelace: nat): (r: string)
  {
    FractionOf(lovelace % LOVELACE_PER_ADA)
  }

  function Spell(whole: string, frac: string): string {
    whole + (if frac != "" then "." + frac else "")
  }

  /** `formatAda` before its unit is appended. */
  function FormatNumber(lovelace: nat): (s: string)
  {
    Spell(ToDecimal(lovelace / LOVELACE_PER_ADA), Fraction(lovelace))
  }

  function FormatAda(lovelace: nat): (s: string)
  {
    FormatNumber(lovelace) + " ADA"
  }

  /** The index of the first dot, or the length of the text. */
  function Dot(s: string): (i: nat)
    ensures i <= |s| && (forall j | 0 <= j < i :: s[j] != '.')
    ensures i < |s| ==> s[i] == '.'
  {
    if s == "" || s[0] == '.' then 0 else 1 + Dot(s[1..])
  }

  lemma DotAt(s: string, i: nat)
    requires i <= |s| && (forall j | 0 <= j < i :: s[j] != '.') && (i < |s| ==> s[i] == '.')
    ensures Dot(s) == i
  {
  }

  /** `/^(\d+)(?:\.(\d{1,6}))?$/`: what its two groups capture, the second empty when it is absent. */
  function Groups(text: string): (r: Option<(string, string)>)
    ensures r.Some? ==> IsDecimal(r.value.0) && AllDigits(r.value.1) && |r.value.1| <= 6
  {
    var dot := Dot(text);
    var whole := text[..dot];
    if !IsDecimal(whole) then None
    else if dot == |text| then Some((whole, ""))
    else if !IsDecimal(text[dot + 1..]) || |text[dot + 1..]| > 6 then None
    else Some((whole, text[dot + 1..]))
  }

  function Lovelace(whole: string, frac: string): nat
    requires AllDigits(whole) && AllDigits(frac) && |frac| <= 6
  {
    FromDecimal(whole) * LOVELACE_PER_ADA + FromDecimal(PadEnd6(frac))
  }

  function ParseAda(text: string): (r: Option<nat>)
  {
    match Groups(text)
    case None => None
    case Some((whole, frac)) => Some(Lovelace(whole, frac))
  }

  lemma {:induction false} DigitsBound(s: string)
    requires AllDigits(s)
    ensures FromDecimal(s) < Pow10(|s|)
  {
    if s != "" {
      DigitsBound(s[..|s| - 1]);
    }
  }

  function Pow10(k: nat): nat {
    if k == 0 then 1 else 10 * Pow10(k - 1)
  }

  lemma {:induction false} PrintedLength(n: nat, k: nat)
    requires k > 0 && n < Pow10(k)
    ensures |ToDecimal(n)| <= k
  {
    if n >= 10 {
      assert k > 1;
      assert n / 10 < Pow10(k - 1);
      PrintedLength(n / 10, k - 1);
    }
  }

  lemma Pow10Of6()
    ensures Pow10(6) == LOVELACE_PER_ADA
  {
    assert Pow10(2) == 100;
    assert Pow10(4) == 10_000;
  }

  lemma {:induction false} LeadingZerosReadAsNothing(k: nat, s: string)
    requires AllDigits(s)
    ensures FromDecimal(Zeros(k) + s) == FromDecimal(s)
  {
    if s != "" {
      LeadingZerosReadAsNothing(k, s[..|s| - 1]);
      assert (Zeros(k) + s)[..k + |s| - 1] == Zeros(k) + s[..|s| - 1];
    } else if k > 0 {
      LeadingZerosReadAsNothing(k - 1, s);
      assert (Zeros(k) + s)[..k - 1] == Zeros(k - 1) + s;
    }
  }

  /** The six digits behind the fraction: padded, they read back as the lovelace under one ADA. */
  lemma FractionReads(lovelace: nat)
    ensures |Fraction(lovelace)| <= 6 && AllDigits(Fraction(lovelace))
    ensures FromDecimal(PadEnd6(Fraction(lovelace))) == lovelace % LOVELACE_PER_ADA
  {
    var m := lovelace % LOVELACE_PER_ADA;
    var printed := ToDecimal(m);
    Pow10Of6();
    PrintedLength(m, 6);
    var six := PadStart(printed, 6);
    assert |six| == 6 && AllDigits(six);
    assert FromDecimal(six) == m by {
      PrintThenRead(m);
      if |printed| < 6 { LeadingZerosReadAsNothing(6 - |printed|, printed); }
    }
    assert PadEnd6(StripTrailingZeros(six)) == six;
  }

  lemma SpellParts(whole: string, frac: string)
    requires IsDecimal(whole)
    ensures var s := Spell(whole, frac);
            && Dot(s) == |whole| && s[..Dot(s)] == whole
            && (Dot(s) < |s| <==> frac != "")
            && (Dot(s) < |s| ==> s[Dot(s) + 1..] == frac)
  {
    DotAt(Spell(whole, frac), |whole|);
  }

  lemma GroupsOfSpelled(whole: string, frac: string)
    requires IsDecimal(whole) && AllDigits(frac) && |frac| <= 6
    ensures Groups(Spell(whole, frac)) == Some((whole, frac))
  {
    SpellParts(whole, frac);
  }

  /** Printing an amount and reading it back gives the amount, whatever its length. */
  lemma ParseUndoesFormat(lovelace: nat)
    ensures ParseAda(FormatNumber(lovelace)) == Some(lovelace)
  {
    var whole, frac := ToDecimal(lovelace / LOVELACE_PER_ADA), Fraction(lovelace);
    FractionReads(lovelace);
    GroupsOfSpelled(whole, frac);
    PrintThenRead(lovelace / LOVELACE_PER_ADA);
  }

  /** What an operator types in full: no zero before the digits that need none, none after. */
  predicate Canonical(text: string) {
    var dot := Dot(text);
    NoLeadingZero(text[..dot]) && (dot < |text| ==> text[|text| - 1] != '0')
  }

  lemma FormatIsCanonical(lovelace: nat)
    ensures Canonical(FormatNumber(lovelace))
  {
    SpellParts(ToDecimal(lovelace / LOVELACE_PER_ADA), Fraction(lovelace));
    PrintedHasNoLeadingZero(lovelace / LOVELACE_PER_ADA);
  }

  lemma StripUndoesPad(frac: string)
    requires IsDecimal(frac) && |frac| <= 6 && frac[|frac| - 1] != '0'
    ensures StripTrailingZeros(PadEnd6(frac)) == frac
  {
    var six := PadEnd6(frac);
    assert six[|frac| - 1] != '0' && forall i | |frac| <= i < 6 :: six[i] == '0';
    assert six[..|frac|] == frac;
  }

  lemma WholeAndRest(a: nat, b: nat, n: nat)
    requires b < LOVELACE_PER_ADA && n == a * LOVELACE_PER_ADA + b
    ensures n / LOVELACE_PER_ADA == a && n % LOVELACE_PER_ADA == b
  {
  }

  lemma NoFraction()
    ensures FractionOf(0) == ""
  {
    var zeros := PadStart(ToDecimal(0), 6);
    assert zeros == Zeros(5) + "0";
    assert forall i | 0 <= i < 6 :: zeros[i] == '0';
  }

  lemma FractionIsPrinted(frac: string)
    requires IsDecimal(frac) && |frac| <= 6 && frac[|frac| - 1] != '0'
    ensures FromDecimal(PadEnd6(frac)) < LOVELACE_PER_ADA && FractionOf(FromDecimal(PadEnd6(frac))) == frac
  {
    var six := PadEnd6(frac);
    Pow10Of6();
    DigitsBound(six);
    ReadThenPrint(six);
    StripUndoesPad(frac);
  }

  lemma CanonicalGroups(text: string)
    requires Groups(text).Some? && Canonical(text)
    ensures var (whole, frac) := Groups(text).value;
            text == Spell(whole, frac) && NoLeadingZero(whole) && (frac != "" ==> frac[|frac| - 1] != '0')
  {
    var dot := Dot(text);
    assert dot < |text| ==> text == text[..dot] + ("." + text[dot + 1..]);
  }

  /** The fraction of a canonical text is the one printed for the lovelace it stands for. */
  lemma FractionIsFixed(frac: string)
    requires AllDigits(frac) && |frac| <= 6 && (frac != "" ==> frac[|frac| - 1] != '0')
    ensures FromDecimal(PadEnd6(frac)) < LOVELACE_PER_ADA && FractionOf(FromDecimal(PadEnd6(frac))) == frac
  {
    if frac == "" {
      NoFraction();
      LeadingZerosReadAsNothing(6, "");
      assert Zeros(6) + "" == PadEnd6("");
    } else {
      FractionIsPrinted(frac);
    }
  }

  lemma CanonicalIsFixed(text: string, n: nat)
    requires ParseAda(text) == Some(n) && Canonical(text)
    ensures FormatNumber(n) == text
  {
    var (whole, frac) := Groups(text).value;
    CanonicalGroups(text);
    CanonicalIsPrinted(whole);
    FractionIsFixed(frac);
    WholeAndRest(FromDecimal(whole), FromDecimal(PadEnd6(frac)), n);
  }

  /**
   * Of all the texts that read as one amount, exactly the canonical one is what `formatAda` prints:
   * printing what was read normalises the text, and leaves it alone only if it was canonical.
   */
  lemma FormatNormalises(text: string, n: nat)
    requires ParseAda(text) == Some(n)
    ensures Canonical(FormatNumber(n)) && ParseAda(FormatNumber(n)) == Some(n)
    ensures Canonical(text) <==> FormatNumber(n) == text
  {
    FormatIsCanonical(n);
    ParseUndoesFormat(n);
    if Canonical(text) { CanonicalIsFixed(text, n); }
  }

  // ---- what is read, exactly ---------------------------------------------------------------------------

  lemma {:induction false} ZerosAfter(s: string, k: nat)
    requires AllDigits(s)
    ensures FromDecimal(s + Zeros(k)) == FromDecimal(s) * Pow10(k)
  {
    if k == 0 {
      assert s + Zeros(0) == s;
    } else {
      ZerosAfter(s, k - 1);
      assert s + Zeros(k) == (s + Zeros(k - 1)) + ['0'];
      FromDecimalSnoc(s + Zeros(k - 1), '0');
    }
  }

  /** The text is these digits of ADA and, after a dot, these of a fraction: so many lovelace. */
  predicate Spells(text: string, whole: string, frac: string, n: nat) {
    && IsDecimal(whole) && AllDigits(frac) && |frac| <= 6
    && text == (if frac == "" then whole else whole + ("." + frac))
    && n == FromDecimal(whole) * 1_000_000 + FromDecimal(frac) * Pow10(6 - |frac|)
  }

  lemma LovelaceIs(whole: string, frac: string)
    requires AllDigits(whole) && AllDigits(frac) && |frac| <= 6
    ensures Lovelace(whole, frac) == FromDecimal(whole) * 1_000_000 + FromDecimal(frac) * Pow10(6 - |frac|)
  {
    ZerosAfter(frac, 6 - |frac|);
  }

  lemma GroupsSpell(text: string)
    requires Groups(text).Some?
    ensures text == Spell(Groups(text).value.0, Groups(text).value.1)
  {
    var dot := Dot(text);
    assert dot < |text| ==> text == text[..dot] + ("." + text[dot + 1..]);
  }

  /** A text is read exactly when it is digits, and a dot and one to six more if any; and as what they stand for. */
  lemma ReadsExactly(text: string, n: nat)
    ensures ParseAda(text) == Some(n) <==> exists whole, frac :: Spells(text, whole, frac, n)
  {
    if ParseAda(text) == Some(n) {
      var (whole, frac) := Groups(text).value;
      GroupsSpell(text);
      LovelaceIs(whole, frac);
      assert Spells(text, whole, frac, n);
    }
    if whole, frac :| Spells(text, whole, frac, n) {
      assert text == Spell(whole, frac);
      GroupsOfSpelled(whole, frac);
      LovelaceIs(whole, frac);
    }
  }
}
