# Ragdoll genetic trait predictor — verified model

This project models the core of a small cat-breeding helper. The helper checks two
parent cats' genotype records and predicts descriptive outcomes for their offspring.

* **Validation** (`validation.dfy`, module `Validation`). A parent record has a coat
  colour (`BB`, `Bb`, `bb`), a dilution (`DD`, `Dd`, `dd`), a pattern (`colorpoint`,
  `mitted`, `bicolor`), a sex and an optional red gene. The red gene must be one of
  `XOXO`, `XOXo`, `XoXo` for a female and one of `XOY`, `XoY` for a male; any other sex
  is an error. The checks run in a fixed order and the first failure ends the chain.
  Each raised error is a `ValidationError` value, and `Message` renders its text exactly
  as the program does, including Python's rendering of the allowed list
  (`['BB', 'Bb', 'bb']`). `ValidateParentInput` returns that text, or
  `"All inputs are valid!"`.
* **Prediction** (`prediction.dfy`, module `Prediction`). `CalculateOffspringTraits`
  validates both parents. It uses the program's own failure test, the substring test
  `"Invalid" in message`, with parent 1 first. For two valid parents it builds an
  outcome record: a colour label chosen by a priority rule, a dilution label, and a
  pattern string naming both parents' patterns in order.
* `pytext.dfy` (module `PyText`) holds the Python string behaviour the program relies
  on: substring containment and `str(list)` of plain strings. `wrappers.dfy` holds
  `Option` and `Outcome`.

Python's `raise ValueError` / `except ValueError` becomes an `Outcome` that is either
`Pass` or `Fail(error)`, checked in an early-return chain. A record without a `red` key
has `red == None`. A `red` key that is present but holds Python's `None` cannot be
represented here; see "## Left out".

Three consequences of the program's code are worth stating:

* For two `bb` parents the third colour rule (`'bb' in [c1, c2]`) fires. The colour is
  left unset only when neither colour is `Bb` or `bb` and the two are not both `BB`.
  Validation rules that out, so for two valid parents the colour is always present
  (`ColorOutcome`, `ValidParentsOutcome`).
* The sex is checked only when a red gene is present (`SexUncheckedWithoutRed`).
* The model keeps the program's substring test `"Invalid" in message`.
  `InvalidMarkerSeparates` proves that it separates success from failure exactly.

## Model

| member | source | states |
|---|---|---|
| Validation.ValidateColorGenotype | main.py:6-9 | passes exactly for BB, Bb, bb; otherwise fails with a colour error carrying the value |
| Validation.ValidateDilutionGenotype | main.py:11-14 | passes exactly for DD, Dd, dd; otherwise fails with a dilution error carrying the value |
| Validation.ValidatePatternGenotype | main.py:16-19 | passes exactly for colorpoint, mitted, bicolor; otherwise fails with a pattern error carrying the value |
| Validation.ValidateRedGenotype | main.py:21-31 | passes exactly when sex is female and the gene is XOXO/XOXo/XoXo, or sex is male and the gene is XOY/XoY; a female or male failure names the gene; any other sex fails with a sex error whatever the gene |
| Validation.ValidationError.Message | main.py:6-31 | every raised error's text starts with "Invalid" |
| Validation.ValidateParent | main.py:33-42 | passes exactly for well-formed records; checks in the order colour, dilution, pattern, red, and the first failing field decides the error; red is checked only when present |
| Validation.ValidateParentInput | main.py:33-45 | returns "All inputs are valid!" exactly when the record is well-formed; otherwise a message starting with "Invalid" that is the text of the first failing check (colour, dilution, pattern, then red when present) for the offending value |
| Validation.ColorFailureHidesRest | main.py:34-44 | once the colour fails, any record with that colour gets the same message, whatever its other fields |
| Validation.DilutionFailureHidesRest | main.py:34-44 | once the dilution fails after a valid colour, pattern, sex and red do not affect the message |
| Validation.PatternFailureHidesRest | main.py:34-44 | once the pattern fails after valid colour and dilution, sex and red do not affect the message |
| Validation.SexUncheckedWithoutRed | main.py:40-41 | without a red gene the sex, even an invalid one, never changes the verdict |
| Validation.InvalidMarkerSeparates | main.py:43-59 | the substring test "Invalid" in message holds exactly for the messages of invalid records |
| Validation.ColorScenario | main.py:6-9 | colour "XYZ" yields exactly "Invalid color genotype: XYZ. Must be one of ['BB', 'Bb', 'bb']" |
| Validation.FemaleRedScenario | main.py:21-25 | a female with the male-only gene XoY fails with a female red-gene error for XoY |
| Prediction.ColorOutcome | main.py:66-72 | "Seal (100%)" iff both are BB; "75% Seal, 25% Chocolate" iff one is Bb; "50% Chocolate, 50% Seal carrier" iff neither is Bb and one is bb; absent iff no rule matches (not both BB, neither Bb nor bb); always present for two valid colours |
| Prediction.DilutionOutcome | main.py:74-78 | "50% Dilute" iff one parent is dd, otherwise "75% Dense, 25% Dilute carrier" |
| Prediction.CalculateOffspringTraits | main.py:47-87 | an outcome record exactly when both parents are valid; otherwise parent 1's message if parent 1 is invalid, else parent 2's; every error text starts with "Invalid" |
| Prediction.ValidParentsOutcome | main.py:66-87 | for two valid parents the colour is present and chosen by the three rules, the dilution follows the dd rule, and the pattern string is built from parent 1's then parent 2's pattern |
| Prediction.ColorAndDilutionSymmetric | main.py:66-78 | swapping two valid parents leaves the colour and dilution outcomes unchanged |
| Prediction.PatternOutcome | main.py:80-81 | the string starts with "Possible pattern outcomes: ", continues with parent 1's pattern, then " × ", and ends with parent 2's pattern; its length is the sum of the four parts |
| Prediction.PatternOutcomeKeepsOrder | main.py:80-81 | the pattern string of two valid patterns determines both patterns and which parent each came from |
| Prediction.PatternOutcomeNotSymmetric | main.py:80-81 | for two different valid patterns, swapping the parents changes the pattern string |
| Prediction.SealScenario | main.py:47-87 | BB/DD/bicolor male by BB/DD/bicolor female gives "Seal (100%)", "75% Dense, 25% Dilute carrier" and "Possible pattern outcomes: bicolor × bicolor" |

## Left out

- The tkinter window, its entry fields, `submit_traits` and the message box (main.py:1-2, 92-172): user-interface plumbing with no logic beyond calling the prediction.
- The catch-all `except Exception` of the prediction (main.py:89-90): it only catches a missing dictionary key, and a parent here is a record whose fields always exist.
- A `red` key that is present but holds Python's `None` (main.py:100, 107): the window stores it whenever the red field is left empty. The key is then present (main.py:40), so `validate_red_genotype(None, sex)` runs and rejects it, with a female or male red-gene error naming `None` or with a sex error. The window therefore rejects every submission whose red field is empty. The model's `None` means "no `red` key", so it cannot express this case and does not reproduce that rejection.
- PyText.ListRepr: renders a string item as the text between single quotes, which is how Python renders strings free of quotes, backslashes and unprintable characters. It is applied only to the fixed allowed-value lists, which have none of these.
- Purity and repeatability of a prediction are not stated as lemmas: every operation is a Dafny function, so equal inputs give equal results by construction.
