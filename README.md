# Job-value calculator: a Dafny model of the scoring

The job-value calculator is a single-page form. A job seeker enters an annual
salary, a weekly schedule, leave, holidays, daily hours, commute and lunch
break. They also pick four categories: work environment, gender environment,
colleagues and education. On every change the page computes a
cost-effectiveness score and shows it with one of four ratings, each with its
own colour: 很惨 (very bad), 一般 (so-so), 不错 (good) and 很爽 (great).

This project models that computation, the body of the effect hook in
`components/calculator.tsx`, in four modules.

- `Factors` (factors.dfy): the four lookup tables from a category string to a
  multiplier. Every table is total: strings outside the listed categories take
  the default branch. For education the default is 1.2, which is what the
  form's "goodbachelor" (211/985 bachelor) button gets. The module also
  defines the combined environment factor, the product of the three
  environment lookups.
- `Formula` (formula.dfy): the fixed arithmetic over plain reals. It covers the
  daily salary and the score, which is the daily salary times the environment
  factor, divided by 35 times the working time times the education factor. It
  also has lemmas on how the score moves when one input moves.
- `Rating` (rating.dfy): the four tiers, their labels and colours, and the
  classifier that picks a tier with the thresholds 0.8, 1.5 and 2.0.
- `Calculator` (calculator.dfy): the form's record (`JobInput`), its initial
  values, the working time and working days per year, and the score of a
  record. It also has `Evaluate`, which returns the score with its label and
  colour instead of calling the page's state setters, and the lemmas tying the
  formula's properties back to the form's fields.

All numbers are exact `real`s, so 0.8, 0.95, 1.05 and the other constants are
exact decimals. The two denominators are the working days per year and the
working time. The score is defined only when both are non-zero
(`Calculator.WellDefined`); on other inputs the page goes on with NaN or
Infinity. The education and environment factors are always positive, so no
other denominator can be zero.

The rating is chosen from the unrounded score, as the page does. The page
rounds only the number it displays.

## Model

| member | source | states |
|---|---|---|
| `Factors.WorkEnvFactor` | components/calculator.tsx:35-36 | total on every string: "remote" gets 0.8, "factory" 0.9, "cbd" 1.1, and every other string (including "normal") 1.0; each value belongs to exactly that case; the result lies in [0.8, 1.1] |
| `Factors.GenderEnvFactor` | components/calculator.tsx:39 | "none" gets 0.9, "many" 1.1, every other string 1.0, each in both directions; the result lies in [0.9, 1.1] |
| `Factors.ColleagueEnvFactor` | components/calculator.tsx:42 | "bad" gets 0.95, "good" 1.05, every other string 1.0, each in both directions; the result lies in [0.95, 1.05] |
| `Factors.EducationFactor` | components/calculator.tsx:45-54 | "highschool" gets 0.8, "bachelor" 1.0, "master" 1.6, "phd" 2.0, and every other string the fallback 1.2, each in both directions; the result lies in [0.8, 2.0] |
| `Factors.EnvironmentFactor` | components/calculator.tsx:57 | over exact reals, the product of the three environment factors always lies in [0.684, 1.2705], so it is strictly positive |
| `Factors.EnvironmentFactorExtremes` | components/calculator.tsx:35-57 | over exact reals, the bounds are reached: remote/none/bad give exactly 0.684, cbd/many/good exactly 1.2705, and normal/normal/normal 1.0 |
| `Factors.FormCategories` | components/calculator.tsx:35-54 | the multiplier of every category string the form's buttons store; "goodbachelor" falls to 1.2 |
| `Factors.EducationOrder` | components/calculator.tsx:45-54 | the education buttons, in the form's order, select strictly increasing multipliers |
| `Rating.Label` | components/calculator.tsx:73-83 | each of 很惨, 一般, 不错 and 很爽 is the label of exactly one tier, in both directions: very bad, so-so, good and great |
| `Rating.Colour` | components/calculator.tsx:73-83 | each of text-red-500, text-yellow-500, text-blue-500 and text-green-500 is the colour of exactly one tier, in both directions: very bad, so-so, good and great |
| `Rating.Classify` | components/calculator.tsx:72-84 | every score gets exactly one tier: below 0.8 very bad, [0.8, 1.5) so-so, [1.5, 2.0) good, 2.0 and above great, each in both directions |
| `Rating.ClassifyCountsThresholds` | components/calculator.tsx:72-84 | the tier's rank equals the number of thresholds in {0.8, 1.5, 2.0} that the score has reached |
| `Rating.ClassifyMonotone` | components/calculator.tsx:72-84 | a larger score never gets a lower tier |
| `Rating.LabelsAndColoursDistinct` | components/calculator.tsx:72-84 | no two tiers share a label or a colour, so each label comes with exactly one colour |
| `Rating.Boundaries` | components/calculator.tsx:72-80 | the boundary values 0.8, 1.5 and 2.0 each fall in the higher tier, labelled 一般, 不错 and 很爽 |
| `Formula.DailySalary` | components/calculator.tsx:64 | the daily salary times the working days gives back the annual salary, and its sign is the salary's sign times the days' sign |
| `Formula.Score` | components/calculator.tsx:64-67 | the sign of the score is the product of the signs of salary, working days, working time, environment factor and education factor |
| `Formula.ScoreMonotoneInSalary` | components/calculator.tsx:64-67 | when every other input is positive, a higher salary never scores lower |
| `Formula.ScoreAntitoneInWorkDays` | components/calculator.tsx:64-67 | for a non-negative salary and positive inputs, more working days never score higher |
| `Formula.ScoreAntitoneInWorkingTime` | components/calculator.tsx:64-67 | for a non-negative salary and positive inputs, a longer working day never scores higher |
| `Formula.ScoreMonotoneInEnvironment` | components/calculator.tsx:64-67 | for a non-negative salary and positive denominators, a higher environment factor never scores lower |
| `Formula.ScoreAntitoneInEducation` | components/calculator.tsx:64-67 | for a non-negative salary and positive inputs, a higher education factor never scores higher |
| `Formula.ScoreProportionalToSalary` | components/calculator.tsx:64-67 | over exact reals, the score is the salary times the score of a salary of 1 |
| `Calculator.WorkingTime` | components/calculator.tsx:60 | the working time is positive exactly when the lunch break is shorter than twice the work and commute hours, and zero exactly when it equals them; how each field moves it is `Calculator.FieldRates`, and the initial 8.5 hours `Calculator.InitialForm` |
| `Calculator.WorkDaysPerYear` | components/calculator.tsx:63 | the working days per year are positive exactly when leave plus holidays are fewer than 52 times the weekly days, and zero exactly when they are equal; how each field moves them is `Calculator.FieldRates`, and the initial 244 days `Calculator.InitialForm` |
| `Calculator.FieldRates` | components/calculator.tsx:60-63 | for any new value of one field: the working time changes by the change in work or commute hours and by minus half the change in lunch break; the working days change by 52 times the change in weekly days and by minus the change in leave or holidays |
| `Calculator.Environment` | components/calculator.tsx:57 | the form's combined environment factor lies in [0.684, 1.2705]; a higher one never lowers the score (`Calculator.ScoreMonotoneInEnvironment`) |
| `Calculator.Score` | components/calculator.tsx:57-67 | the score of a form is zero exactly when the salary is zero, and in general has the sign of salary times working days times working time |
| `Calculator.Evaluate` | components/calculator.tsx:64-84 | the value the rating is chosen from is the score; the pair (很惨, text-red-500) is shown exactly below 0.8, (一般, text-yellow-500) exactly on [0.8, 1.5), (不错, text-blue-500) exactly on [1.5, 2.0), and (很爽, text-green-500) exactly from 2.0 up |
| `Calculator.ScoreMonotoneInSalary` | components/calculator.tsx:57-84 | with positive working days and working time, raising the salary never lowers the score or the tier |
| `Calculator.ScoreAntitoneInWorkDays` | components/calculator.tsx:63-67 | changing the weekly days, leave or holidays so that the year has more working days never raises the score |
| `Calculator.ScoreAntitoneInWorkingTime` | components/calculator.tsx:60-67 | changing the hours, commute or lunch break so that the working time grows never raises the score |
| `Calculator.ScoreMonotoneInEnvironment` | components/calculator.tsx:35-67 | environment categories with a higher combined factor never lower the score |
| `Calculator.ScoreAntitoneInEducation` | components/calculator.tsx:45-67 | an education category with a higher factor never raises the score |
| `Calculator.ScoreProportionalToSalary` | components/calculator.tsx:64-67 | over exact reals, the score of a form is its salary times the score of the same form with salary 1 |
| `Calculator.InitialForm` | components/calculator.tsx:13-25 | the initial form has 8.5 hours of working time, 244 working days, factors 1.0, and evaluates to (0, 很惨, text-red-500) |
| `Calculator.ZeroSalary` | components/calculator.tsx:64-74 | whenever the formula is defined, a salary of 0 evaluates to exactly (0, 很惨, text-red-500) |
| `Calculator.BachelorExample` | components/calculator.tsx:57-84 | 300000 a year on the initial form scores 300000 / 72590 (about 4.13) and is rated 很爽 |
| `Calculator.DoctorateExample` | components/calculator.tsx:45-84 | the same job with education "phd" scores between 2.06 and 2.07 and is still rated 很爽 |
| `Calculator.NegativeWorkDays` | components/calculator.tsx:63-74 | a negative number of working days is not rejected: with a positive salary and working time the score is negative and rated 很惨 |
| `Calculator.LongLeaveExample` | components/calculator.tsx:63-74 | 300000 a year on the initial form with 300 days of leave gives -51 working days, a negative score and the rating 很惨 |

## Left out

- The page layout, inputs, buttons and the static explanation text (components/calculator.tsx:99-363) are presentation. The explanation gives a finer seven-step education scale (lines 355-357) that the code does not implement; the model follows the code at lines 45-54.
- Turning the text boxes' strings into numbers (`Number(e.target.value)`, e.g. line 120) is the browser's string-to-number coercion. The model takes the numbers as given.
- Rounding the shown value with `toFixed(2)` and `parseFloat` (line 69) is IEEE-754 formatting. `Verdict.value` is the unrounded score, the value the label is chosen from (line 72). A score just below a threshold, such as 0.799, is therefore displayed as 0.80 yet rated 很惨.
- Factors.EnvironmentFactor: its bounds [0.684, 1.2705] hold exactly over reals; the page multiplies IEEE doubles, so its product agrees only up to rounding (1.1 * 1.1 * 1.05 evaluates to 1.2705000000000002, just above the bound).
- Factors.EnvironmentFactorExtremes: the exact values 0.684, 1.2705 and 1.0 are products of exact decimals; the page's doubles reach them only up to rounding (1.1 * 1.1 * 1.05 gives 1.2705000000000002).
- Formula.ScoreProportionalToSalary: proportionality to the salary holds exactly over reals; with the page's doubles each division and product rounds, so it holds only up to rounding, and a score within rounding of 0.8, 1.5 or 2.0 can land on the other side of the threshold.
- Calculator.ScoreProportionalToSalary: the same as for `Formula.ScoreProportionalToSalary`; it holds exactly over reals and only up to rounding on the page, including near the thresholds 0.8, 1.5 and 2.0.
- Zero denominators: when the working days per year or the working time is 0, the page computes NaN or Infinity. NaN fails every `<` test, so it lands in the last branch, 很爽. This is floating-point behaviour. The model excludes these inputs with the precondition `WellDefined` instead of modelling it.
- The React state hooks and the effect's dependency list (lines 13-30, 85-97) only re-run the computation when a field changes. The model is one evaluation of the computation; `Calculator.Initial` holds the initial state.
- `app/page.tsx` and `app/layout.tsx` are page layout and metadata, with no logic; they are not part of this model.
