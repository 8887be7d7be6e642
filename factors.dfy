/** The four category lookups of the job-value calculator.
    Each lookup maps the string a form button stores to a multiplier. It is
    total: any string outside the listed categories takes the default branch.
    The form's own "normal" button is such a string. */
module Factors {

  /** Work environment: remote 0.8, factory 0.9, CBD or civil-service office 1.1,
      and 1.0 for every other string (the form's "normal"). */
  function WorkEnvFactor(env: string): (f: real)
    ensures f == 0.8 <==> env == "remote"
    ensures f == 0.9 <==> env == "factory"
    ensures f == 1.1 <==> env == "cbd"
    ensures f == 1.0 <==> (env != "remote" && env != "factory" && env != "cbd")
    ensures 0.8 <= f <= 1.1
  {
    if env == "remote" then 0.8
    else if env == "factory" then 0.9
    else if env == "cbd" then 1.1
    else 1.0
  }

  /** Gender environment: "none" 0.9, "many" 1.1, and 1.0 for every other string. */
  function GenderEnvFactor(env: string): (f: real)
    ensures f == 0.9 <==> env == "none"
    ensures f == 1.1 <==> env == "many"
    ensures f == 1.0 <==> (env != "none" && env != "many")
    ensures 0.9 <= f <= 1.1
  {
    if env == "none" then 0.9
    else if env == "many" then 1.1
    else 1.0
  }

  /** Colleague environment: "bad" 0.95, "good" 1.05, and 1.0 for every other string. */
  function ColleagueEnvFactor(env: string): (f: real)
    ensures f == 0.95 <==> env == "bad"
    ensures f == 1.05 <==> env == "good"
    ensures f == 1.0 <==> (env != "bad" && env != "good")
    ensures 0.95 <= f <= 1.05
  {
    if env == "bad" then 0.95
    else if env == "good" then 1.05
    else 1.0
  }

  /** Education: "highschool" 0.8, "bachelor" 1.0, "master" 1.6, "phd" 2.0, and
      1.2 for every other string. The form's "goodbachelor" button lands here. */
  function EducationFactor(edu: string): (f: real)
    ensures f == 0.8 <==> edu == "highschool"
    ensures f == 1.0 <==> edu == "bachelor"
    ensures f == 1.6 <==> edu == "master"
    ensures f == 2.0 <==> edu == "phd"
    ensures f == 1.2 <==> (edu != "highschool" && edu != "bachelor" && edu != "master" && edu != "phd")
    ensures 0.8 <= f <= 2.0
  {
    if edu == "highschool" then 0.8
    else if edu == "bachelor" then 1.0
    else if edu == "master" then 1.6
    else if edu == "phd" then 2.0
    else 1.2
  }

  /** The combined environment factor: the product of the three environment
      lookups. It is strictly positive and lies between the product of the three
      smallest factors (0.8 * 0.9 * 0.95) and the product of the three largest
      (1.1 * 1.1 * 1.05). */
  function EnvironmentFactor(work: string, gender: string, colleague: string): (f: real)
    ensures 0.684 <= f <= 1.2705
  {
    var w, g, c := WorkEnvFactor(work), GenderEnvFactor(gender), ColleagueEnvFactor(colleague);
    ProductBounds(w, g, c);
    w * g * c
  }

  /** Monotonicity of a product of three positive reals in each factor. */
  lemma ProductBounds(w: real, g: real, c: real)
    requires 0.8 <= w <= 1.1 && 0.9 <= g <= 1.1 && 0.95 <= c <= 1.05
    ensures 0.684 <= w * g * c <= 1.2705
  {
    assert 0.72 <= w * g <= 1.21 by {
      assert 0.8 * g <= w * g <= 1.1 * g;
    }
    var p := w * g;
    assert 0.72 * c <= p * c <= 1.21 * c;
    assert 0.684 <= 0.72 * c && 1.21 * c <= 1.2705;
  }

  /** The bounds of EnvironmentFactor are tight: the least and the most pleasant
      choice of the form's buttons reach them exactly. */
  lemma EnvironmentFactorExtremes()
    ensures EnvironmentFactor("remote", "none", "bad") == 0.684
    ensures EnvironmentFactor("cbd", "many", "good") == 1.2705
    ensures EnvironmentFactor("normal", "normal", "normal") == 1.0
  {
  }

  /** Every button of the form, with the multiplier it selects. */
  lemma FormCategories()
    ensures WorkEnvFactor("remote") == 0.8 && WorkEnvFactor("factory") == 0.9
    ensures WorkEnvFactor("normal") == 1.0 && WorkEnvFactor("cbd") == 1.1
    ensures GenderEnvFactor("none") == 0.9 && GenderEnvFactor("normal") == 1.0 && GenderEnvFactor("many") == 1.1
    ensures ColleagueEnvFactor("bad") == 0.95 && ColleagueEnvFactor("normal") == 1.0 && ColleagueEnvFactor("good") == 1.05
    ensures EducationFactor("highschool") == 0.8 && EducationFactor("bachelor") == 1.0
    ensures EducationFactor("goodbachelor") == 1.2
    ensures EducationFactor("master") == 1.6 && EducationFactor("phd") == 2.0
  {
  }

  /** The education buttons, in the order the form shows them, select strictly
      increasing multipliers. */
  lemma EducationOrder()
    ensures EducationFactor("highschool") < EducationFactor("bachelor") < EducationFactor("goodbachelor")
    ensures EducationFactor("goodbachelor") < EducationFactor("master") < EducationFactor("phd")
  {
  }
}
