/**
 * The two operational policies of src/optimizer.py: a staff count with a
 * floor of three, and catering quantities with a 10% safety buffer.
 */
module Optimizer {
  import opened Numeric

  /** Guests one staff member looks after. */
  const GuestsPerStaff := 20
  /** Staff on duty whatever the crowd. */
  const MinimumStaff := 3

  /** `math.ceil(n / d)` for a positive divisor. */
  function CeilDiv(n: int, d: int): (q: int)
    requires d > 0
    ensures (q - 1) * d < n <= q * d
  {
    -((-n) / d)
  }

  /**
   * `staffing_recommendation(crowd)`: one staff member per 20 guests,
   * rounded up, and never fewer than three. The result is the least staff
   * count of at least three that covers the crowd at 20 guests each.
   */
  function StaffingRecommendation(crowd: int): (staff: int)
    ensures staff >= MinimumStaff
    ensures staff * GuestsPerStaff >= crowd
    ensures staff == MinimumStaff || (staff - 1) * GuestsPerStaff < crowd
  {
    var staff := CeilDiv(crowd, GuestsPerStaff);
    if staff > MinimumStaff then staff else MinimumStaff
  }

  /** Above 40 guests the policy is `ceil(crowd / 20)`; up to 40 (and for any smaller input) it is 3. */
  lemma StaffingCases(crowd: int)
    ensures crowd > 40 ==> StaffingRecommendation(crowd) == CeilDiv(crowd, GuestsPerStaff)
    ensures crowd <= 40 ==> StaffingRecommendation(crowd) == MinimumStaff
  {
    var q := CeilDiv(crowd, GuestsPerStaff);
    if crowd > 40 {
      assert q * GuestsPerStaff > 40;
    } else {
      assert (q - 1) * GuestsPerStaff < 40;
    }
  }

  /** A larger crowd never gets fewer staff. */
  lemma StaffingMonotone(a: int, b: int)
    requires a <= b
    ensures StaffingRecommendation(a) <= StaffingRecommendation(b)
  {
    var sa, sb := StaffingRecommendation(a), StaffingRecommendation(b);
    if sa > MinimumStaff {
      assert (sa - 1) * GuestsPerStaff < a <= b <= sb * GuestsPerStaff;
    }
  }

  /** Catering quantities for one hour. */
  datatype Menu = Menu(snacks: int, drinks: int, meals: int)

  /**
   * `menu_recommendation(crowd)`: 70% snacks, 50% drinks, 25% meals, each
   * with a 10% buffer, truncated to a whole number (`int()`), i.e. the
   * integer parts of 0.77, 0.55 and 0.275 times the crowd.
   */
  function MenuRecommendation(crowd: int): (m: Menu)
    ensures crowd >= 0 ==> m.snacks == 77 * crowd / 100
    ensures crowd >= 0 ==> m.drinks == 55 * crowd / 100
    ensures crowd >= 0 ==> m.meals == 275 * crowd / 1000
    ensures crowd < 0 ==> m.snacks == -((-77 * crowd) / 100)
    ensures crowd < 0 ==> m.drinks == -((-55 * crowd) / 100)
    ensures crowd < 0 ==> m.meals == -((-275 * crowd) / 1000)
  {
    var c := crowd as real;
    var m := Menu(Trunc(c * 0.7 * 1.1), Trunc(c * 0.5 * 1.1), Trunc(c * 0.25 * 1.1));
    TruncScaled(crowd, 77, 100);
    TruncScaled(crowd, 55, 100);
    TruncScaled(crowd, 275, 1000);
    assert c * 0.7 * 1.1 == (77 * crowd) as real / 100 as real;
    assert c * 0.5 * 1.1 == (55 * crowd) as real / 100 as real;
    assert c * 0.25 * 1.1 == (275 * crowd) as real / 1000 as real;
    m
  }

  /** For a non-negative crowd: snacks >= drinks >= meals >= 0, and an empty lounge needs nothing. */
  lemma MenuOrdered(crowd: int)
    requires crowd >= 0
    ensures MenuRecommendation(crowd).snacks >= MenuRecommendation(crowd).drinks
    ensures MenuRecommendation(crowd).drinks >= MenuRecommendation(crowd).meals >= 0
    ensures MenuRecommendation(0) == Menu(0, 0, 0)
  {
    var m := MenuRecommendation(crowd);
    assert 100 * m.drinks <= 55 * crowd <= 77 * crowd;
    assert 1000 * m.meals <= 275 * crowd <= 550 * crowd;
  }

  /** The module's own self-check: 120 guests need 6 staff and (92, 66, 33) catering units. */
  lemma SelfCheck()
    ensures StaffingRecommendation(120) == 6
    ensures MenuRecommendation(120) == Menu(92, 66, 33)
  {
  }
}
