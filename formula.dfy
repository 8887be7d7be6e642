/** The fixed arithmetic of the job-value calculator, over plain reals: the
    daily salary and the score formula, with the ways the score moves when one
    of its inputs moves. */
module Formula {

  /** The sign of a real: -1, 0 or 1. */
  function Sign(x: real): int
  {
    if x > 0.0 then 1 else if x < 0.0 then -1 else 0
  }

  /** The salary of one working day: the annual salary spread evenly over the
      working days of the year. */
  function DailySalary(salary: real, workDaysPerYear: real): (d: real)
    requires workDaysPerYear != 0.0
    ensures d * workDaysPerYear == salary
    ensures Sign(d) == Sign(salary) * Sign(workDaysPerYear)
  {
    SignDiv(salary, workDaysPerYear);
    salary / workDaysPerYear
  }

  /** The score: the daily salary weighted by the environment factor, against
      35 times the daily working time weighted by the education factor. Its
      sign is the product of the signs of the five inputs. */
  function Score(salary: real, workDaysPerYear: real, workingTime: real,
                 environmentFactor: real, educationFactor: real): (v: real)
    requires workDaysPerYear != 0.0 && workingTime != 0.0 && educationFactor != 0.0
    ensures Sign(v) == Sign(salary) * Sign(workDaysPerYear) * Sign(workingTime)
                       * Sign(environmentFactor) * Sign(educationFactor)
  {
    var daily := DailySalary(salary, workDaysPerYear);
    SignMul(daily, environmentFactor);
    SignMul(35.0, workingTime);
    SignMul(35.0 * workingTime, educationFactor);
    SignDiv(daily * environmentFactor, 35.0 * workingTime * educationFactor);
    (daily * environmentFactor) / (35.0 * workingTime * educationFactor)
  }

  /** A higher salary never scores lower, when every other input is positive. */
  lemma ScoreMonotoneInSalary(s1: real, s2: real, days: real, time: real, env: real, edu: real)
    requires s1 <= s2 && days > 0.0 && time > 0.0 && env > 0.0 && edu > 0.0
    ensures Score(s1, days, time, env, edu) <= Score(s2, days, time, env, edu)
  {
    DivMonotone(s1, s2, days);
    MulMonotone(s1 / days, s2 / days, env);
    SignMul(35.0, time);
    SignMul(35.0 * time, edu);
    DivMonotone(s1 / days * env, s2 / days * env, 35.0 * time * edu);
  }

  /** More working days never score higher, for a non-negative salary and
      positive other inputs. */
  lemma ScoreAntitoneInWorkDays(s: real, d1: real, d2: real, time: real, env: real, edu: real)
    requires s >= 0.0 && 0.0 < d1 <= d2 && time > 0.0 && env > 0.0 && edu > 0.0
    ensures Score(s, d2, time, env, edu) <= Score(s, d1, time, env, edu)
  {
    DivAntitone(s, d1, d2);
    MulMonotone(s / d2, s / d1, env);
    SignMul(35.0, time);
    SignMul(35.0 * time, edu);
    DivMonotone(s / d2 * env, s / d1 * env, 35.0 * time * edu);
  }

  /** A longer working day never scores higher, for a non-negative salary and
      positive other inputs. */
  lemma ScoreAntitoneInWorkingTime(s: real, days: real, t1: real, t2: real, env: real, edu: real)
    requires s >= 0.0 && days > 0.0 && 0.0 < t1 <= t2 && env > 0.0 && edu > 0.0
    ensures Score(s, days, t2, env, edu) <= Score(s, days, t1, env, edu)
  {
    var n := DailySalary(s, days) * env;
    SignMul(DailySalary(s, days), env);
    MulMonotone(35.0 * t1, 35.0 * t2, edu);
    SignMul(35.0, t1);
    SignMul(35.0 * t1, edu);
    DivAntitone(n, 35.0 * t1 * edu, 35.0 * t2 * edu);
  }

  /** A higher environment factor never scores lower, for a non-negative salary
      and positive denominators. */
  lemma ScoreMonotoneInEnvironment(s: real, days: real, time: real, e1: real, e2: real, edu: real)
    requires s >= 0.0 && days > 0.0 && time > 0.0 && e1 <= e2 && edu > 0.0
    ensures Score(s, days, time, e1, edu) <= Score(s, days, time, e2, edu)
  {
    var daily := DailySalary(s, days);
    MulMonotone(e1, e2, daily);
    SignMul(35.0, time);
    SignMul(35.0 * time, edu);
    DivMonotone(daily * e1, daily * e2, 35.0 * time * edu);
  }

  /** A higher education factor never scores higher, for a non-negative salary
      and positive other inputs. */
  lemma ScoreAntitoneInEducation(s: real, days: real, time: real, env: real, q1: real, q2: real)
    requires s >= 0.0 && days > 0.0 && time > 0.0 && env > 0.0 && 0.0 < q1 <= q2
    ensures Score(s, days, time, env, q2) <= Score(s, days, time, env, q1)
  {
    var n := DailySalary(s, days) * env;
    SignMul(DailySalary(s, days), env);
    SignMul(35.0, time);
    MulMonotone(q1, q2, 35.0 * time);
    SignMul(35.0 * time, q1);
    DivAntitone(n, 35.0 * time * q1, 35.0 * time * q2);
  }

  /** The score is proportional to the salary. */
  lemma ScoreProportionalToSalary(s: real, days: real, time: real, env: real, edu: real)
    requires days != 0.0 && time != 0.0 && edu != 0.0
    ensures Score(s, days, time, env, edu) == s * Score(1.0, days, time, env, edu)
  {
    var d := 35.0 * time * edu;
    SignMul(35.0, time);
    SignMul(35.0 * time, edu);
    assert s / days == s * (1.0 / days);
    assert (s * (1.0 / days) * env) / d == s * ((1.0 / days * env) / d);
  }

  lemma SignMul(x: real, y: real)
    ensures Sign(x * y) == Sign(x) * Sign(y)
  {
    if x > 0.0 && y > 0.0 { assert x * y > 0.0; }
    else if x > 0.0 && y < 0.0 { assert x * (-y) > 0.0; }
    else if x < 0.0 && y > 0.0 { assert (-x) * y > 0.0; }
    else if x < 0.0 && y < 0.0 { assert (-x) * (-y) > 0.0; }
  }

  lemma SignDiv(x: real, d: real)
    requires d != 0.0
    ensures Sign(x / d) == Sign(x) * Sign(d)
  {
    SignMul(x / d, d);
    assert x / d * d == x;
    SignMul(d, d);
  }

  lemma MulMonotone(a: real, b: real, c: real)
    requires a <= b && c >= 0.0
    ensures a * c <= b * c
  {
    SignMul(b - a, c);
    assert b * c - a * c == (b - a) * c;
  }

  lemma DivMonotone(n1: real, n2: real, d: real)
    requires n1 <= n2 && d > 0.0
    ensures n1 / d <= n2 / d
  {
    assert n2 / d - n1 / d == (n2 - n1) / d;
    SignDiv(n2 - n1, d);
  }

  lemma DivAntitone(n: real, d1: real, d2: real)
    requires n >= 0.0 && 0.0 < d1 <= d2
    ensures n / d2 <= n / d1
  {
    var x1, x2 := n / d1, n / d2;
    assert x1 * d1 == n && x2 * d2 == n;
    SignDiv(n, d2);
    MulMonotone(d1, d2, x2);
    SignMul(x1 - x2, d1);
    assert (x1 - x2) * d1 == n - x2 * d1;
  }
}
