/**
 * The progressive motor-vehicle tax calculator. From a vehicle's assessed
 * value (nilai jual) and its ownership rank (kepemilikan ke-) it derives the
 * transfer fee BBNKB, the motor-vehicle tax PKB at a rate that grows with the
 * rank, the progressive surcharge (PKB beyond what a first vehicle pays),
 * three fixed fees and the total. Amounts are exact reals; the source works
 * in binary floating point, which this model does not reproduce.
 */
module Tax {

  /** BBNKB, the transfer fee, as a fraction of the assessed value (12.5%). */
  const BbnkbRate: real := 0.125
  /** The PKB rate of a first vehicle (16%). */
  const FirstPkbRate: real := 0.16
  /** What each further ownership rank adds to the PKB rate (8 points). */
  const ProgressiveStep: real := 0.08
  /** SWDKLLJ, the mandatory road-accident insurance contribution. */
  const Swdkljj: real := 35000.0
  /** Administration fee of the registration certificate (STNK). */
  const BiayaAdmStnk: real := 100000.0
  /** Administration fee of the number plate (TNKB). */
  const BiayaAdmTnkb: real := 60000.0

  /** The breakdown `calculateTax` returns; `tarifPkb` is a percentage. */
  datatype TaxCalculation = TaxCalculation(
    nilaiJual: real,
    bbnkb: real,
    pkb: real,
    swdkljj: real,
    biayaAdmStnk: real,
    biayaAdmTnkb: real,
    pajakProgresif: real,
    totalPajak: real,
    tarifPkb: real)

  /** The PKB rate (a fraction) for ownership rank `kepemilikanKe`, with the source's special case for rank 1. */
  function TarifPkb(kepemilikanKe: int): real
  {
    if kepemilikanKe == 1 then FirstPkbRate
    else FirstPkbRate + ProgressiveStep * (kepemilikanKe - 1) as real
  }

  /** The special case for rank 1 agrees with the general formula, so the branch is redundant. */
  lemma TarifPkbUniform(kepemilikanKe: int)
    ensures TarifPkb(kepemilikanKe) == 0.16 + 0.08 * (kepemilikanKe - 1) as real
    ensures TarifPkb(1) == 0.16
  {
  }

  /**
   * `calculateTax(nilaiJual, kepemilikanKe)`. The only caller checks that the
   * rank is at least 1 before calling; the calculation itself does not need it.
   */
  function CalculateTax(nilaiJual: real, kepemilikanKe: int): (t: TaxCalculation)
    ensures t.nilaiJual == nilaiJual
    ensures t.bbnkb == nilaiJual / 8.0
    ensures t.tarifPkb == 16.0 + 8.0 * (kepemilikanKe - 1) as real
    ensures t.pkb == t.bbnkb * t.tarifPkb / 100.0
    ensures t.pajakProgresif == t.pkb - t.bbnkb * 0.16
    ensures t.pajakProgresif == t.bbnkb * 0.08 * (kepemilikanKe - 1) as real
    ensures t.swdkljj == 35000.0 && t.biayaAdmStnk == 100000.0 && t.biayaAdmTnkb == 60000.0
    ensures t.totalPajak == t.pkb + 195000.0
    ensures kepemilikanKe == 1 ==> t.pajakProgresif == 0.0 && t.tarifPkb == 16.0
  {
    var bbnkb := nilaiJual * BbnkbRate;
    var tarifPkb := TarifPkb(kepemilikanKe);
    var pkb := bbnkb * tarifPkb;
    var pkbMotorPertama := bbnkb * FirstPkbRate;
    var pajakProgresif := pkb - pkbMotorPertama;
    var totalPajak := pkb + Swdkljj + BiayaAdmStnk + BiayaAdmTnkb;
    TaxCalculation(
      nilaiJual, bbnkb, pkb, Swdkljj, BiayaAdmStnk, BiayaAdmTnkb,
      pajakProgresif, totalPajak, tarifPkb * 100.0)
  }

  /** The surcharge is never negative for a non-negative value and a rank of at least 1. */
  lemma SurchargeNonNegative(nilaiJual: real, kepemilikanKe: int)
    requires nilaiJual >= 0.0 && kepemilikanKe >= 1
    ensures CalculateTax(nilaiJual, kepemilikanKe).pajakProgresif >= 0.0
    ensures CalculateTax(nilaiJual, kepemilikanKe).pkb >= CalculateTax(nilaiJual, 1).pkb
  {
  }

  /**
   * For a positive value, one more rank costs exactly 1% of the value more, so
   * the total is strictly increasing in the rank.
   */
  lemma TotalStrictlyIncreasing(nilaiJual: real, k1: int, k2: int)
    requires nilaiJual > 0.0 && k1 < k2
    ensures CalculateTax(nilaiJual, k2).totalPajak - CalculateTax(nilaiJual, k1).totalPajak
            == nilaiJual * (k2 - k1) as real / 100.0
    ensures CalculateTax(nilaiJual, k1).totalPajak < CalculateTax(nilaiJual, k2).totalPajak
  {
    var t1, t2 := CalculateTax(nilaiJual, k1), CalculateTax(nilaiJual, k2);
    assert t2.pkb - t1.pkb == nilaiJual / 800.0 * (t2.tarifPkb - t1.tarifPkb);
    assert t2.tarifPkb - t1.tarifPkb == 8.0 * (k2 - k1) as real;
  }

  /** For a fixed rank, BBNKB, PKB and the surcharge are linear in the value. */
  lemma LinearInValue(a: real, v1: real, v2: real, kepemilikanKe: int)
    ensures CalculateTax(a * v1 + v2, kepemilikanKe).bbnkb
            == a * CalculateTax(v1, kepemilikanKe).bbnkb + CalculateTax(v2, kepemilikanKe).bbnkb
    ensures CalculateTax(a * v1 + v2, kepemilikanKe).pkb
            == a * CalculateTax(v1, kepemilikanKe).pkb + CalculateTax(v2, kepemilikanKe).pkb
    ensures CalculateTax(a * v1 + v2, kepemilikanKe).pajakProgresif
            == a * CalculateTax(v1, kepemilikanKe).pajakProgresif + CalculateTax(v2, kepemilikanKe).pajakProgresif
  {
  }

  /** The worked example: a motor assessed at 18,000,000 at ranks 1, 2 and 3. */
  lemma ExampleEighteenMillion()
    ensures CalculateTax(18000000.0, 1) == TaxCalculation(
      18000000.0, 2250000.0, 360000.0, 35000.0, 100000.0, 60000.0, 0.0, 555000.0, 16.0)
    ensures CalculateTax(18000000.0, 2) == TaxCalculation(
      18000000.0, 2250000.0, 540000.0, 35000.0, 100000.0, 60000.0, 180000.0, 735000.0, 24.0)
    ensures CalculateTax(18000000.0, 3) == TaxCalculation(
      18000000.0, 2250000.0, 720000.0, 35000.0, 100000.0, 60000.0, 360000.0, 915000.0, 32.0)
  {
  }
}
