/** The BMI screen (`BmiScreen`): height and weight read from the store, the
    BMI with a -1.0 sentinel, and the message picked by an ordered `when`.
    The `Double` arithmetic is modelled by exact reals. */
module Ekran3 {
  import opened SharedPrefs

  const Sentinel: real := -1.0

  /** `weight / ((height / 100.0) * (height / 100.0))` when both inputs are
      positive, the sentinel otherwise. */
  function Bmi(height: int, weight: int): (bmi: real)
    ensures height <= 0 || weight <= 0 ==> bmi == Sentinel
    ensures height > 0 && weight > 0 ==> bmi > 0.0 && bmi * (height * height) as real == (weight * 10000) as real
  {
    if height > 0 && weight > 0 then
      var m := height as real / 100.0;
      weight as real / (m * m)
    else Sentinel
  }

  /** The four branches of the `when`, in the order they are tested. */
  datatype BmiCategory = BelowNorm | Normal | AboveNorm | CannotCompute

  /** `bmi < 18.5`, then `bmi in 18.5..24.9`, then `bmi >= 25`, else the
      "cannot compute" message. */
  function Classify(bmi: real): (c: BmiCategory)
    ensures c == BelowNorm <==> bmi < 18.5
    ensures c == Normal <==> 18.5 <= bmi <= 24.9
    ensures c == AboveNorm <==> bmi >= 25.0
    ensures c == CannotCompute <==> 24.9 < bmi < 25.0
  {
    if bmi < 18.5 then BelowNorm
    else if 18.5 <= bmi <= 24.9 then Normal
    else if bmi >= 25.0 then AboveNorm
    else CannotCompute
  }

  /** The texts of the four branches; `formatted` is `"%.2f".format(bmi)`. */
  function BelowText(name: string, formatted: string): string
  {
    "Hej " + name + ", jesteś poniżej normy. Twoje BMI wynosi " + formatted + "."
  }

  function NormalText(name: string, formatted: string): string
  {
    "Hej " + name + ", jesteś w świetnej formie! Twoje BMI wynosi " + formatted + "."
  }

  function AboveText(name: string, formatted: string): string
  {
    "Hej " + name + ", Twoje BMI wynosi " + formatted + ", warto zadbać o zdrowie!"
  }

  const CannotComputeText := "Nie można obliczyć BMI. Sprawdź swoje dane."

  /** The message shown on the card; `name` is the route argument. Every
      branch but the last greets the user by name. */
  function Message(name: string, bmi: real, formatted: string): (r: string)
    ensures Classify(bmi) == BelowNorm ==> r == BelowText(name, formatted)
    ensures Classify(bmi) == Normal ==> r == NormalText(name, formatted)
    ensures Classify(bmi) == AboveNorm ==> r == AboveText(name, formatted)
    ensures r == CannotComputeText <==> Classify(bmi) == CannotCompute
    ensures Classify(bmi) != CannotCompute ==> |r| > 4 + |name| && r[..4 + |name|] == "Hej " + name
  {
    match Classify(bmi)
    case BelowNorm => BelowText(name, formatted)
    case Normal => NormalText(name, formatted)
    case AboveNorm => AboveText(name, formatted)
    case CannotCompute => CannotComputeText
  }

  /** The BMI of what the store holds, missing keys read as -1. */
  function StoredBmi(m: Prefs): (bmi: real)
    requires WellTyped(m)
    ensures KeyHeight !in m || KeyWeight !in m ==> bmi == Sentinel
    ensures KeyHeight in m && KeyWeight in m ==> bmi == Bmi(m[KeyHeight].i, m[KeyWeight].i)
  {
    Bmi(GetInt(m, KeyHeight, NoNumber), GetInt(m, KeyWeight, NoNumber))
  }

  /** Comparing `bmi` with a threshold `c` is comparing `bmi * d` with
      `c * d`, for a positive factor `d`. */
  lemma ScaleCompare(bmi: real, d: real, m: real, c: real)
    requires d > 0.0 && bmi * d == m
    ensures bmi < c <==> m < c * d
    ensures bmi <= c <==> m <= c * d
  {
    if bmi < c {
      assert (c - bmi) * d > 0.0;
    }
    if bmi > c {
      assert (bmi - c) * d > 0.0;
    }
  }

  /** The three thresholds of the `when`, multiplied out over the integers. */
  lemma ThresholdsAsIntegers(hh: int, mass: int, d: real, m: real)
    requires d == hh as real && m == mass as real
    ensures m < 18.5 * d <==> 2 * mass < 37 * hh
    ensures m <= 24.9 * d <==> 10 * mass <= 249 * hh
    ensures m < 25.0 * d <==> mass < 25 * hh
  {
  }

  /** The branch taken for a value `bmi` with `bmi * hh == mass`, where `hh`
      is positive: every threshold becomes a comparison of integers. */
  lemma ClassifyScaled(bmi: real, hh: int, mass: int)
    requires hh > 0 && bmi * hh as real == mass as real
    ensures Classify(bmi) == BelowNorm <==> 2 * mass < 37 * hh
    ensures Classify(bmi) == Normal <==> 37 * hh <= 2 * mass && 10 * mass <= 249 * hh
    ensures Classify(bmi) == AboveNorm <==> mass >= 25 * hh
    ensures Classify(bmi) == CannotCompute <==> 249 * hh < 10 * mass && mass < 25 * hh
  {
    var d, m := hh as real, mass as real;
    ScaleCompare(bmi, d, m, 18.5);
    ScaleCompare(bmi, d, m, 24.9);
    ScaleCompare(bmi, d, m, 25.0);
    ThresholdsAsIntegers(hh, mass, d, m);
  }

  /** For positive inputs each branch is decided by integer arithmetic alone. */
  lemma ClassifyByCrossMultiplication(height: int, weight: int)
    requires height > 0 && weight > 0
    ensures Classify(Bmi(height, weight)) == BelowNorm <==> 2 * (weight * 10000) < 37 * (height * height)
    ensures Classify(Bmi(height, weight)) == Normal <==>
              37 * (height * height) <= 2 * (weight * 10000) && 10 * (weight * 10000) <= 249 * (height * height)
    ensures Classify(Bmi(height, weight)) == AboveNorm <==> weight * 10000 >= 25 * (height * height)
    ensures Classify(Bmi(height, weight)) == CannotCompute <==>
              249 * (height * height) < 10 * (weight * 10000) && weight * 10000 < 25 * (height * height)
  {
    SquarePositive(height);
    ClassifyScaled(Bmi(height, weight), height * height, weight * 10000);
  }

  /** Bounds on `bmi` from bounds on `hh` and `mass` when `bmi * hh == mass`. */
  lemma BmiBounds(bmi: real, hh: int, mass: int)
    requires 2500 <= hh <= 62500 && 30000 <= mass <= 2000000
    requires bmi * hh as real == mass as real
    ensures 0.48 <= bmi <= 800.0
  {
    var d, m := hh as real, mass as real;
    ScaleCompare(bmi, d, m, 0.48);
    ScaleCompare(bmi, d, m, 800.0);
    assert 2500.0 <= d <= 62500.0 && 30000.0 <= m <= 2000000.0;
  }

  /** Heights in 50..250 and weights in 3..200, the ranges the form accepts,
      give a BMI between 0.48 and 800. */
  lemma BmiRangeOfValidatedInputs(height: int, weight: int)
    requires 50 <= height <= 250 && 3 <= weight <= 200
    ensures 0.48 <= Bmi(height, weight) <= 800.0
  {
    SquareBounds(height);
    BmiBounds(Bmi(height, weight), height * height, weight * 10000);
  }

  lemma SquarePositive(height: int)
    requires height > 0
    ensures height * height > 0
  {
    assert height * height >= height;
  }

  lemma SquareBounds(height: int)
    requires 50 <= height <= 250
    ensures 2500 <= height * height <= 62500
  {
    assert 50 * height <= height * height;
    assert height * height <= 250 * height;
  }

  /** The gap between 24.9 and 25 is reached by whole numbers: 170 cm and
      72 kg give about 24.91. */
  lemma GapIsReachable()
    ensures Classify(Bmi(170, 72)) == CannotCompute
  {
    ClassifyByCrossMultiplication(170, 72);
  }

  /** Validated inputs reach two thresholds exactly: 200 cm and 74 kg give
      18.5 (normal), 160 cm and 64 kg give 25 (above the norm). */
  lemma ThresholdsReachedExactly()
    ensures Bmi(200, 74) == 18.5 && Classify(Bmi(200, 74)) == Normal
    ensures Bmi(160, 64) == 25.0 && Classify(Bmi(160, 64)) == AboveNorm
  {
    ClassifyByCrossMultiplication(200, 74);
    ClassifyByCrossMultiplication(160, 64);
  }

  /** The sentinel falls into the first branch: missing or non-positive data
      is reported as below the norm, not as "cannot compute". */
  lemma MissingDataIsBelowNorm(m: Prefs)
    requires WellTyped(m)
    requires KeyHeight !in m || KeyWeight !in m
    ensures StoredBmi(m) == Sentinel
    ensures Classify(StoredBmi(m)) == BelowNorm
  {
  }
}
