# Offer letter analyzer: the scoring core in Dafny

This project models the two halves of the analyzer's core in `recommendation_logic.py`.

- **Market-salary fetcher** (`get_market_salary`). The salary service's decoded JSON reply goes through a chain of early-return checks:
  - the body must be an object;
  - its `status` must be `"OK"`;
  - `data` must be a non-empty list;
  - the first entry must carry `median_salary`, `min_salary`, `max_salary`, `salary_currency` and `salary_period`.

  The first entry is then normalised to INR. A foreign currency has median, min and max multiplied by the fixed rate 90. An INR entry passes through unchanged. Any failed check gives no market data.
- **Offer scorer** (`analyze_offer`). Four fixed rules run in order: salary against the market median, deductions ratio, notice period and essential benefits. Each rule adds to a running score and appends to the `pros`, `cons` and `recommendations` lists. The final score alone selects Accept (score ≥ 2), Negotiate (−1 ≤ score < 2) or Decline (score < −1).

Files:

- `wrappers.dfy`: `Option`, standing for Python's `None` or a value.
- `market_data.dfy`, module `MarketData`:
  - a `Json` datatype for the decoded reply, with Python truthiness;
  - the validation pipeline `ValidateResponse` and the currency step `Normalise`, both pure functions.
- `offer_analysis.dfy`, module `OfferAnalysis`, in three layers:
  - **Specification.** Each rule is a function returning a `Verdict`: the points it adds and the pros, cons and recommendations it appends. `Then` applies one rule after another, and `Evaluate` runs all four in the source's order.
  - **Procedure.** The scorer runs step by step, as the source does. `AnalyzeOffer` starts from a zero score and empty lists. It passes them through one step method per rule section (`ApplySalaryRule` … `ApplyBenefitRule`), each updating local `score`, `pros`, `cons` and `recommendations` variables. It ends with `Decide`, the threshold chain. Each step is proved equal to its rule function.
  - **Lemmas.** Properties of the rule functions and of their composition.

Messages are tagged constructors (`AboveMarket(ctc, median)`, `DeductionsHigh(deductions, percent)`, …) that carry the figures the source's message prints. Each kind of con is appended together with its own recommendation; the predicate `Answers` names which. The three decision explanations are the source's fixed sentences. Money amounts are exact `real`s; the literals `1.1`, `0.85` and `0.3` are exact in Dafny.

Three facts about the code's inputs shape the model:

- Market figures and deductions may be zero or negative. The code checks neither sign, and the model assumes neither.
- `raise_for_status` rejects a non-success HTTP status before the reply is decoded. That failure is part of the `None` input of `MarketSalaryFrom`.
- Benefits are the posted list (`app.py:17`), and the code tests membership in it. The model takes a `seq<string>`.

## Model

| member | source | states |
|---|---|---|
| MarketData.AllPresent | recommendation_logic.py:41-42 | the field-by-field `all(...)` holds exactly when every required field is a key of the entry |
| MarketData.Normalise | recommendation_logic.py:46-64 | yields a record exactly when the three figures are numbers; the currency is always INR and the period is copied; a non-INR entry has median, min and max multiplied by 90, and an INR entry keeps them unchanged |
| MarketData.ValidateResponse | recommendation_logic.py:24-64 | each of these gives None on its own: a non-object body, a status other than "OK", a missing, falsy, non-list or empty `data`, a first entry that is not an object or lacks a required field; a reply passing every check gives exactly the normalisation of `data[0]` (so a record whenever its figures are numbers), and any record produced is that one, in INR |
| MarketData.MarketSalaryFrom | recommendation_logic.py:18-74 | a failed request or decode gives None; otherwise the result is that of the validation pipeline |
| MarketData.NormaliseIdempotent | recommendation_logic.py:58-64 | normalising an already normalised record gives the same record back (INR is a fixed point) |
| MarketData.CanonicalIsIdentity | recommendation_logic.py:58-64 | an INR entry with numeric figures passes through with the same median, min, max and period |
| MarketData.ForeignMedianConverted | recommendation_logic.py:47-56 | a foreign median of 1000 (min 800, max 1500) becomes 90000 (72000, 135000) INR |
| MarketData.OnlyFirstEntryConsulted | recommendation_logic.py:40 | entries after `data[0]` never change the outcome |
| MarketData.WellFormedReplyAccepted | recommendation_logic.py:30-64 | a reply with status "OK" whose first `data` entry carries every required field with numeric figures always yields a record, the normalisation of that entry |
| MarketData.EmptyDataRejected | recommendation_logic.py:35-37 | an empty `data` list gives None |
| OfferAnalysis.Then | recommendation_logic.py:90-146 | appending one rule's entries after another's keeps cons and recommendations paired one to one |
| OfferAnalysis.ThenAccounted | recommendation_logic.py:78-146 | if each of two runs of rules has a score equal to what its pros and cons are worth, so does the two runs one after the other |
| OfferAnalysis.SalaryRule | recommendation_logic.py:87-103 | +2 with an above-market pro exactly when market data exists and ctc > 1.1·median; −2 with a below-market con and a negotiate-to-range recommendation exactly when ctc < 0.85·median; with no market data or inside the band, nothing changes |
| OfferAnalysis.PercentAboveThirty | recommendation_logic.py:106-116 | for a positive CTC, the reported percentage exceeds 30 exactly when deductions exceed 0.3·ctc |
| OfferAnalysis.DeductionRule | recommendation_logic.py:106-116 | adds exactly one entry: a con with the breakdown recommendation and −1 when deductions exceed 0.3·ctc (its percentage is above 30), otherwise a pro whose percentage is at most 30 |
| OfferAnalysis.NoticeRule | recommendation_logic.py:119-126 | adds exactly one entry: a con with the shorter-notice recommendation and −1 when the notice period exceeds 90 days, otherwise the industry-standard pro |
| OfferAnalysis.Present | recommendation_logic.py:135 | the result holds exactly the essentials whose code is listed in the offer's benefits |
| OfferAnalysis.Missing | recommendation_logic.py:136 | the result holds exactly the essentials whose code is not listed |
| OfferAnalysis.PartitionCounts | recommendation_logic.py:129-136 | the present and missing essentials together are the three essentials: their sizes add up, and so do their multisets |
| OfferAnalysis.OnlyEssentialCodesMatter | recommendation_logic.py:135-136 | two benefit lists that agree on the essential codes give the same present and missing lists |
| OfferAnalysis.PresentNonEmpty | recommendation_logic.py:138 | the present list is non-empty exactly when some essential code is listed |
| OfferAnalysis.MissingNonEmpty | recommendation_logic.py:141 | the missing list is non-empty exactly when some essential code is not listed |
| OfferAnalysis.PresentInOrder | recommendation_logic.py:129-135 | the present essentials come in the fixed order health insurance, retirement plan, paid time off |
| OfferAnalysis.MissingInOrder | recommendation_logic.py:129-136 | the missing essentials come in the same fixed order |
| OfferAnalysis.BenefitRule | recommendation_logic.py:129-146 | loses one point per missing essential (so between −3 and 0); adds at most one "includes" pro (exactly when some essential is listed) and at most one "missing" con with its recommendation (exactly when some essential is not) |
| OfferAnalysis.OtherBenefitIgnored | recommendation_logic.py:135-136 | a benefit code outside the essentials changes neither the score nor the lists |
| OfferAnalysis.HealthOnlyExample | recommendation_logic.py:129-146 | with only health insurance listed: −2, con naming Retirement Plan and Paid Time Off, pro naming Health Insurance |
| OfferAnalysis.HighDeductionsExample | recommendation_logic.py:106-114 | ctc 100000 with deductions 40000: −1 and a con reporting 40% |
| OfferAnalysis.DecisionFor | recommendation_logic.py:149-166 | Accept exactly when score ≥ 2, Negotiate exactly when −1 ≤ score < 2, Decline exactly when score < −1 |
| OfferAnalysis.DecisionMonotone | recommendation_logic.py:149-166 | a higher score never gives a worse decision |
| OfferAnalysis.Decide | recommendation_logic.py:148-166 | the threshold chain returns the decision for the score and that decision's fixed explanation |
| OfferAnalysis.Score | recommendation_logic.py:78-146 | the sum of the four contributions always lies in [−7, 2] |
| OfferAnalysis.Evaluate | recommendation_logic.py:77-146 | the four rules in order give points equal to the score, with cons and recommendations paired one to one |
| OfferAnalysis.ApplySalaryRule | recommendation_logic.py:86-103 | the step-by-step salary section leaves the score and lists exactly as the salary rule specifies |
| OfferAnalysis.ApplyDeductionRule | recommendation_logic.py:105-116 | the step-by-step deductions section leaves the score and lists exactly as the deductions rule specifies |
| OfferAnalysis.ApplyNoticeRule | recommendation_logic.py:118-126 | the step-by-step notice section leaves the score and lists exactly as the notice rule specifies |
| OfferAnalysis.ApplyBenefitRule | recommendation_logic.py:128-146 | the step-by-step benefits section leaves the score and lists exactly as the benefits rule specifies |
| OfferAnalysis.AnalyzeOffer | recommendation_logic.py:77-176 | the result's score, pros, cons and recommendations are those of the four rules in order; the score lies in [−7, 2]; the decision and explanation follow from the score alone; the market data is returned as given; every con is paired with its own recommendation |
| OfferAnalysis.SalaryAccounted | recommendation_logic.py:87-103 | the salary rule's points equal what its pro or con is worth |
| OfferAnalysis.DeductionAccounted | recommendation_logic.py:106-116 | the deductions rule's points equal what its pro or con is worth |
| OfferAnalysis.NoticeAccounted | recommendation_logic.py:119-126 | the notice rule's points equal what its pro or con is worth |
| OfferAnalysis.BenefitAccounted | recommendation_logic.py:129-146 | the benefits rule's points equal what its pro or con is worth: minus the number of missing benefits it names |
| OfferAnalysis.ScoreMatchesFindings | recommendation_logic.py:78-146 | re-summing the findings reproduces the score: +2 for an above-market pro, −2, −1, −1 or −(names missing) for each con |
| OfferAnalysis.AcceptIffBestOnEveryRule | recommendation_logic.py:87-155 | Accept exactly when market data shows ctc above 1.1·median, deductions are at most 0.3·ctc, notice is at most 90 days and every essential is listed |
| OfferAnalysis.NoMarketNeverAccept | recommendation_logic.py:84-89 | without market data the score is at most 0, so the offer is never accepted |

## Left out

- The outbound request (`requests.get`, URL, query string, API key and host headers, `config` import) is not modelled. Nor are `raise_for_status`, JSON decoding, or the `except` clauses that turn their failures into `None`. Their combined outcome is the `Option<Json>` given to `MarketSalaryFrom`.
- `analyze_offer` does not make the fetch call in this model: market data is an input of `AnalyzeOffer`. `job_title` and `location` are dropped because only the fetch uses them.
- The `print` logging is left out.
- Message text is left out: the f-string wording and the `:,.2f` / `:.1f` formatting. Each message is a constructor carrying the figures it prints.
- OfferAnalysis.SalaryRule: the above-market and below-market messages carry the CTC and the median, not the percentage the source prints. In the source, computing that percentage divides by the median. A median of 0 passes validation, is always beaten by a positive CTC, and then raises `ZeroDivisionError` inside `analyze_offer`. The model does not capture that failure.
- Python floating-point rounding in `median * 1.1`, `median * 0.85`, `0.3 * ctc`, the percentages and `* 90` is not modelled. The model uses exact reals.
- OfferAnalysis.AnalyzeOffer: requires ctc > 0. The source never checks this and would divide by zero in the deductions message.
- MarketData.Normalise: a salary figure that is neither a number nor a bool gives no market data, and the salary rule then adds nothing. The source behaves differently in two ways. First, it keeps the dict: a string or list figure is repeated 90 times in a foreign currency, and any figure passes through unchanged in INR. Second, the analysis reads `median_salary` for every comparison (recommendation_logic.py:88, :95) but `min_salary` and `max_salary` only in the below-market message (:102). So when only min or max is non-numeric, the source still scores the salary: +2 above the band, 0 inside it, and it fails only when ctc < 0.85·median. The model loses that ±2 in those cases. A non-numeric median makes the source raise at :88. In a foreign currency, a null or object figure raises in the fetcher, which turns that into `None`.
- The source tests `if market_data:` on the returned dict. Such a dict is never empty, so the model's `market.Some?` is the same test.
- `app.py` (Flask routing, form parsing, template rendering) is not part of this model.
