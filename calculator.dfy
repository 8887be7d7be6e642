/** The job-value calculator: the record of what the form holds, how its
    fields feed the score formula, and the evaluation that pairs the score with
    its rating. All quantities are exact reals. */
module Calculator {
  import opened Factors
  import opened Rating
  import Formula

  /** The values the form holds. The four categories are the strings the form's
      buttons store. */
  datatype JobInput = JobInput(
    salary: real,           // annual salary before tax
    workDaysPerWeek: real,
    annualLeave: real,      // days of paid leave per year
    holidays: real,         // public holidays per year
    workHoursPerDay: real,
    commuteHours: real,     // per day
    lunchBreakHours: real,  // per day, counted at half weight
    workEnvironment: string,
    genderEnvironment: string,
    colleagueEnvironment: string,
    education: string)

  /** What the form holds before the user changes anything. */
  const Initial: JobInput :=
    JobInput(0.0, 5.0, 5.0, 11.0, 8.0, 1.0, 1.0, "normal", "normal", "normal", "bachelor")

  /** Hours a working day costs: work plus commute, minus half the lunch break.
      It is positive exactly when the lunch break is shorter than twice the
      work and commute hours, and zero exactly when it is equal to them. */
  function WorkingTime(i: JobInput): (t: real)
    ensures t > 0.0 <==> i.lunchBreakHours < 2.0 * (i.workHoursPerDay + i.commuteHours)
    ensures t == 0.0 <==> i.lunchBreakHours == 2.0 * (i.workHoursPerDay + i.commuteHours)
  {
    i.workHoursPerDay + i.commuteHours - 0.5 * i.lunchBreakHours
  }

  /** Working days per year: 52 weeks of working days, less leave and holidays.
      It is positive exactly when leave and holidays together are fewer than
      52 weeks' worth of working days, and zero exactly when they are equal. */
  function WorkDaysPerYear(i: JobInput): (d: real)
    ensures d > 0.0 <==> i.annualLeave + i.holidays < 52.0 * i.workDaysPerWeek
    ensures d == 0.0 <==> i.annualLeave + i.holidays == 52.0 * i.workDaysPerWeek
  {
    52.0 * i.workDaysPerWeek - i.annualLeave - i.holidays
  }

  /** How each field moves the two denominators, for any new value: each hour
      of work or commute adds an hour to the working day and each hour of lunch
      break takes half an hour off; each weekly working day adds 52 days a
      year, and each day of leave or holiday takes one away. */
  lemma FieldRates(i: JobInput, x: real)
    ensures WorkingTime(i.(workHoursPerDay := x)) == WorkingTime(i) + (x - i.workHoursPerDay)
    ensures WorkingTime(i.(commuteHours := x)) == WorkingTime(i) + (x - i.commuteHours)
    ensures WorkingTime(i.(lunchBreakHours := x)) == WorkingTime(i) - 0.5 * (x - i.lunchBreakHours)
    ensures WorkDaysPerYear(i.(workDaysPerWeek := x)) == WorkDaysPerYear(i) + 52.0 * (x - i.workDaysPerWeek)
    ensures WorkDaysPerYear(i.(annualLeave := x)) == WorkDaysPerYear(i) - (x - i.annualLeave)
    ensures WorkDaysPerYear(i.(holidays := x)) == WorkDaysPerYear(i) - (x - i.holidays)
  {
  }

  /** The combined environment factor of the three environment categories. */
  function Environment(i: JobInput): (e: real)
    ensures 0.684 <= e <= 1.2705
  {
    EnvironmentFactor(i.workEnvironment, i.genderEnvironment, i.colleagueEnvironment)
  }

  /** Both denominators of the formula are non-zero. The calculator itself does
      not check this: with a zero denominator it goes on with NaN or Infinity. */
  predicate WellDefined(i: JobInput)
  {
    WorkDaysPerYear(i) != 0.0 && WorkingTime(i) != 0.0
  }

  /** The score of the form's values. The environment and education factors are
      positive, so the score has the sign of the salary times the signs of the
      two denominators: it is zero exactly when the salary is, and a positive
      salary over positive days and hours scores positive. */
  function Score(i: JobInput): (v: real)
    requires WellDefined(i)
    ensures Formula.Sign(v) == Formula.Sign(i.salary) * Formula.Sign(WorkDaysPerYear(i)) * Formula.Sign(WorkingTime(i))
  {
    Formula.Score(i.salary, WorkDaysPerYear(i), WorkingTime(i), Environment(i), EducationFactor(i.education))
  }

  /** What the calculator shows: the score and the label and colour of its
      rating. The rating is chosen from the score before it is rounded for
      display. */
  datatype Verdict = Verdict(value: real, text: string, colour: string)

  /** One evaluation of the calculator on the form's values. Every score gets
      exactly one of four (label, colour) pairs, by the half-open interval it
      falls in. */
  function Evaluate(i: JobInput): (r: Verdict)
    requires WellDefined(i)
    ensures r.value == Score(i)
    ensures r.text == "很惨" && r.colour == "text-red-500" <==> r.value < 0.8
    ensures r.text == "一般" && r.colour == "text-yellow-500" <==> 0.8 <= r.value < 1.5
    ensures r.text == "不错" && r.colour == "text-blue-500" <==> 1.5 <= r.value < 2.0
    ensures r.text == "很爽" && r.colour == "text-green-500" <==> 2.0 <= r.value
  {
    var v := Score(i);
    var t := Classify(v);
    Verdict(v, Label(t), Colour(t))
  }

  /** With positive working days and working time, a higher salary never
      scores lower, and never gets a lower tier. */
  lemma ScoreMonotoneInSalary(i: JobInput, s: real)
    requires WorkDaysPerYear(i) > 0.0 && WorkingTime(i) > 0.0
    requires i.salary <= s
    ensures Score(i) <= Score(i.(salary := s))
    ensures Rank(Classify(Score(i))) <= Rank(Classify(Score(i.(salary := s))))
  {
    Formula.ScoreMonotoneInSalary(i.salary, s, WorkDaysPerYear(i), WorkingTime(i), Environment(i), EducationFactor(i.education));
    ClassifyMonotone(Score(i), Score(i.(salary := s)));
  }

  /** With a non-negative salary and positive denominators, more working days
      per year never score higher. */
  lemma ScoreAntitoneInWorkDays(i: JobInput, perWeek: real, leave: real, holidays: real)
    requires i.salary >= 0.0 && WorkDaysPerYear(i) > 0.0 && WorkingTime(i) > 0.0
    requires WorkDaysPerYear(i) <= WorkDaysPerYear(i.(workDaysPerWeek := perWeek, annualLeave := leave, holidays := holidays))
    ensures Score(i.(workDaysPerWeek := perWeek, annualLeave := leave, holidays := holidays)) <= Score(i)
  {
    var j := i.(workDaysPerWeek := perWeek, annualLeave := leave, holidays := holidays);
    Formula.ScoreAntitoneInWorkDays(i.salary, WorkDaysPerYear(i), WorkDaysPerYear(j), WorkingTime(i), Environment(i), EducationFactor(i.education));
  }

  /** With a non-negative salary and positive denominators, a longer working
      day (more work, more commute or a shorter lunch break) never scores
      higher. */
  lemma ScoreAntitoneInWorkingTime(i: JobInput, hours: real, commute: real, lunch: real)
    requires i.salary >= 0.0 && WorkDaysPerYear(i) > 0.0 && WorkingTime(i) > 0.0
    requires WorkingTime(i) <= WorkingTime(i.(workHoursPerDay := hours, commuteHours := commute, lunchBreakHours := lunch))
    ensures Score(i.(workHoursPerDay := hours, commuteHours := commute, lunchBreakHours := lunch)) <= Score(i)
  {
    var j := i.(workHoursPerDay := hours, commuteHours := commute, lunchBreakHours := lunch);
    Formula.ScoreAntitoneInWorkingTime(i.salary, WorkDaysPerYear(i), WorkingTime(i), WorkingTime(j), Environment(i), EducationFactor(i.education));
  }

  /** With a non-negative salary and positive denominators, environment
      categories with a higher combined factor never score lower. */
  lemma ScoreMonotoneInEnvironment(i: JobInput, work: string, gender: string, colleague: string)
    requires i.salary >= 0.0 && WorkDaysPerYear(i) > 0.0 && WorkingTime(i) > 0.0
    requires Environment(i) <= EnvironmentFactor(work, gender, colleague)
    ensures Score(i) <= Score(i.(workEnvironment := work, genderEnvironment := gender, colleagueEnvironment := colleague))
  {
    Formula.ScoreMonotoneInEnvironment(i.salary, WorkDaysPerYear(i), WorkingTime(i), Environment(i), EnvironmentFactor(work, gender, colleague), EducationFactor(i.education));
  }

  /** With a non-negative salary and positive denominators, a category with a
      higher education factor never scores higher. */
  lemma ScoreAntitoneInEducation(i: JobInput, edu: string)
    requires i.salary >= 0.0 && WorkDaysPerYear(i) > 0.0 && WorkingTime(i) > 0.0
    requires EducationFactor(i.education) <= EducationFactor(edu)
    ensures Score(i.(education := edu)) <= Score(i)
  {
    Formula.ScoreAntitoneInEducation(i.salary, WorkDaysPerYear(i), WorkingTime(i), Environment(i), EducationFactor(i.education), EducationFactor(edu));
  }

  /** Whenever the formula is defined, the score is the salary times the score
      of a salary of 1. */
  lemma ScoreProportionalToSalary(i: JobInput)
    requires WellDefined(i)
    ensures Score(i) == i.salary * Score(i.(salary := 1.0))
  {
    Formula.ScoreProportionalToSalary(i.salary, WorkDaysPerYear(i), WorkingTime(i), Environment(i), EducationFactor(i.education));
  }

  /** Before the user changes anything: 8.5 hours a day over 244 days, neutral
      factors, and a salary of 0, which rates the job very bad. */
  lemma InitialForm()
    ensures WorkingTime(Initial) == 8.5 && WorkDaysPerYear(Initial) == 244.0
    ensures Environment(Initial) == 1.0 && EducationFactor(Initial.education) == 1.0
    ensures Evaluate(Initial) == Verdict(0.0, "很惨", "text-red-500")
  {
  }

  /** Whenever the formula is defined, a salary of 0 scores exactly 0, rated very bad. */
  lemma ZeroSalary(i: JobInput)
    requires WellDefined(i) && i.salary == 0.0
    ensures Evaluate(i) == Verdict(0.0, "很惨", "text-red-500")
  {
  }

  /** 300000 a year on the initial form: 300000 / 244 / (35 * 8.5), about 4.13, rated great. */
  lemma BachelorExample()
    ensures WellDefined(Initial.(salary := 300000.0))
    ensures Score(Initial.(salary := 300000.0)) == 300000.0 / 72590.0
    ensures Evaluate(Initial.(salary := 300000.0)).text == "很爽"
  {
  }

  /** The same job for a doctorate (factor 2.0): about 2.07, still rated great. */
  lemma DoctorateExample()
    ensures WellDefined(Initial.(salary := 300000.0, education := "phd"))
    ensures 2.06 < Score(Initial.(salary := 300000.0, education := "phd")) < 2.07
    ensures Evaluate(Initial.(salary := 300000.0, education := "phd")).text == "很爽"
  {
  }

  /** The calculator does not reject a negative number of working days: a
      positive salary over a positive working day then scores negative and is
      rated very bad. */
  lemma NegativeWorkDays(i: JobInput)
    requires i.salary > 0.0 && WorkDaysPerYear(i) < 0.0 && WorkingTime(i) > 0.0
    ensures Score(i) < 0.0
    ensures Evaluate(i) == Verdict(Score(i), "很惨", "text-red-500")
  {
  }

  /** 300000 a year on the initial form with 300 days of leave: the year has
      -51 working days, and the job is rated very bad instead of rejected. */
  lemma LongLeaveExample()
    ensures WorkDaysPerYear(Initial.(salary := 300000.0, annualLeave := 300.0)) == -51.0
    ensures Score(Initial.(salary := 300000.0, annualLeave := 300.0)) < 0.0
    ensures Evaluate(Initial.(salary := 300000.0, annualLeave := 300.0)).text == "很惨"
  {
    NegativeWorkDays(Initial.(salary := 300000.0, annualLeave := 300.0));
  }
}
