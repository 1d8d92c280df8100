# Orakula pick engine in Dafny

This project models the part of the Orakula football-betting assistant that
turns probabilities and bookmaker odds into a recommendation.

- **Client.** The browser client (`backend/static/app.js`) holds a cached
  model probability, or a home/draw/away triple for the 1X2 market. It
  reads one to three decimal odds from a free-text field. It then fills
  three tiles: probability, expected value (EV) and pick.
  - Simple markets (over 2.5 goals, both teams to score, spread) pick
    "Back", "Lay" or "—".
  - The 1X2 market picks "1", "X", "2" or "—".
- **Server.** The verdict rule of the server (`backend/main.py`, `predict`)
  labels a bet "A favor", "En contra" or "No apostar" from one probability
  and an optional odd.

Everything is modelled as total, pure functions over explicit inputs. The
inputs are the odds text, the market, the league, the cached probabilities
and the decoded JSON reply. Probabilities and odds are Dafny `real`s.
JavaScript's `parseFloat` is left abstract: every reader takes it as a
parameter `parse: string -> Option<real>`, where `None` stands for NaN.

Modules, one per file:

- `Optional` (optional.dfy): the `Option` type.
- `Thresholds` (thresholds.dfy): the league/market threshold table and
  `getThreshold`.
- `Ev` (ev.dfy): `clamp01`, `computeEV`, the "+" rule of `formatEV` and the
  tone rule of `setEvTone`.
- `Odds` (odds.dfy): `trim`, the split on `/[\/,\s;]+/`, the comma
  replacement, the filter and the two odds readers.
- `Picks` (picks.dfy): the simple-market decision, the 1X2 decision with
  its leftmost-wins reduce, and the dispatcher `refreshClientKPIs`.
- `Response` (response.dfy): normalising the JSON reply into the caches,
  and the refresh that follows it.
- `Verdict` (verdict.dfy): probability selection, server EV and the
  three-way label.

Where the code differs from what its comments or a reader would expect, the
model follows the code:

- **Comma in the odds text.** ',' is one of the split separators, so
  `x.replace(',', '.')` can never fire. "1,85" is read as the pieces "1"
  (dropped) and "85" (kept), never as 1.85.
- **EV of exactly zero.** `formatEV` writes the "+" only for `ev > 0`, but
  the tone is positive for `ev >= 0`. An EV of zero is therefore shown
  without a sign yet styled positive, and the simple market backs it.
- **1X2 after a submit.** The server's reply (`PredictResponse`, main.py:40-43) carries only `prob`, `ev` and `pick`. A 1X2 reply therefore never fills the cached triple, and the 1X2 tiles show "N/A", "N/A" and "—" (`Response.ServerReplyNeverFillsTriple`).
- **The two readers.** `readSingleOdds` parses the whole text, not its
  first piece. It can therefore disagree with the first element of
  `readMultiOdds`.

## Model

| member | source | states |
|---|---|---|
| Thresholds.GetThreshold | backend/static/app.js:28-46 | the threshold equals the written-out table: the league's own entry for the market, else the market default, else 0.50; it always lies in [0.50, 0.55] |
| Thresholds.UnknownLeagueUsesDefault | backend/static/app.js:41-46 | a league missing from the table gets the market default, or 0.50 for a market without one |
| Thresholds.SpreadAlwaysFallback | backend/static/app.js:28-46 | the spread market has no entry anywhere, so every league gets 0.50 |
| Thresholds.ThresholdExamples | backend/static/app.js:28-46 | over-2.5 in LaLiga is 0.54, 1X2 in the Premier League is 0.51, BTTS in an unlisted league is the 0.52 default |
| Ev.Clamp01 | backend/static/app.js:51 | the result lies in [0, 1]; values in range are unchanged, values below are 0 and values above are 1 |
| Ev.Clamp01Idempotent | backend/static/app.js:51 | clamping twice is clamping once |
| Ev.Clamp01Monotone | backend/static/app.js:51 | clamping preserves order |
| Ev.ComputeEV | backend/static/app.js:70-73 | the EV is absent iff the probability or the odd is absent; otherwise EV + 1 = probability × odd |
| Ev.EvSignIsImpliedProbability | backend/static/app.js:70-73 | for a positive odd o, the EV is non-negative iff p >= 1/o and positive iff p > 1/o |
| Ev.EvMonotoneInProbability | backend/static/app.js:70-73 | for a fixed positive odd, a larger probability never gives a smaller EV |
| Ev.FormatEV | backend/static/app.js:75-80 | "N/A" iff there is no EV; otherwise the percentage is EV × 100, with a "+" iff EV > 0 and no sign iff EV <= 0 |
| Ev.EvTone | backend/static/app.js:82-88 | neutral iff there is no EV, positive iff EV >= 0, negative iff EV < 0 |
| Ev.SignAndToneDisagreeOnlyAtZero | backend/static/app.js:75-88 | an unsigned text with a positive tone happens exactly at EV = 0; a "+" always comes with a positive tone |
| Ev.ZeroEvExample | backend/static/app.js:75-88 | EV 0 renders without sign and positive; 0.08 renders "+" 8; no EV renders "N/A" and neutral |
| Odds.IsWhitespace | backend/static/app.js:63-65 | the blank, tab and newline are whitespace; no digit, '.', ',' or '-' is |
| Odds.IsSeparator | backend/static/app.js:65 | every whitespace character separates; no digit, '.', '-' or '+' does, so the characters of a number are never split |
| Odds.Trim | backend/static/app.js:63 | the result is a slice of the input with only whitespace cut at both ends; it neither starts nor ends with whitespace; it is empty iff the input is all whitespace |
| Odds.Split | backend/static/app.js:65 | there is at least one piece; no piece contains a separator; interior pieces are never empty; the first is non-empty when the text starts with a non-separator |
| Odds.SplitSingle | backend/static/app.js:65 | a separator-free text is a single piece |
| Odds.SplitStep | backend/static/app.js:65 | a separator-free piece, a non-empty run of separators, then text not starting with a separator, splits into that piece followed by the pieces of the rest |
| Odds.SplitLosesOnlySeparators | backend/static/app.js:65 | gluing the pieces back together gives the text with exactly its separators removed |
| Odds.ReplaceFirst | backend/static/app.js:65 | the result has the input's length and differs from it only at the first occurrence of the replaced character |
| Odds.CommaReplacementIsDead | backend/static/app.js:65 | no piece of a split contains a comma, so replacing ',' by '.' leaves every piece unchanged |
| Odds.ParseToken | backend/static/app.js:65 | a separator-free piece, which every split piece is, parses exactly as written |
| Odds.IsValidOdd | backend/static/app.js:65 | an unparsable piece and 1.01 itself are rejected; a valid odd exceeds 1, so its implied probability lies strictly between 0 and 1 |
| Odds.Survivors | backend/static/app.js:65 | the filter keeps at most one value per piece, and every kept value is above 1.01 |
| Odds.SurvivorsAppend | backend/static/app.js:65 | filtering distributes over concatenation, so survivors keep input order |
| Odds.SurvivorMembership | backend/static/app.js:65 | a value survives iff some piece parses to it and it is above 1.01 |
| Odds.ReadSingleOdds | backend/static/app.js:54-57 | a value is returned iff parsing the whole text gives a number above 1.01, and then it is that number |
| Odds.ReadMultiOdds | backend/static/app.js:61-68 | absent iff the text is blank or no piece survives; otherwise 1 to 3 values, each above 1.01, equal to the first min(3, n) survivors in input order |
| Odds.CommaNeverDecimal | backend/static/app.js:61-68 | every returned odd is the parse of a whole comma-free piece of the trimmed text |
| Odds.CommaSplitExample | backend/static/app.js:61-68 | pieces parsing to 1 and 85 joined by a comma, as in "1,85", give [85] |
| Odds.MixedSeparatorsExample | backend/static/app.js:61-68 | "1.85/2,10 , 3.40"-shaped text gives [1.85, 2, 10]; the fourth odd is dropped |
| Odds.ReadersDisagreeExample | backend/static/app.js:54-68 | for "abc 2.0"-shaped text the single reader gives nothing and the multi reader gives [2] |
| Picks.SimpleKpis | backend/static/app.js:95-110 | the pick is "—" iff no probability is cached; with a valid odd it is Back iff p × o − 1 >= 0, and the EV text and tone follow; without one it is Back iff p reaches the league threshold and the EV tile is "N/A", neutral |
| Picks.SimpleBackIsValueBet | backend/static/app.js:95-110 | with a valid odd o, the simple market backs exactly when p >= 1/o |
| Picks.LeftmostMaxUnique | backend/static/app.js:136 | a leftmost maximum is unique |
| Picks.ReduceIndex | backend/static/app.js:136 | the left fold keeping the accumulator on `>=` ends on a largest key with every earlier key strictly smaller |
| Picks.Candidates | backend/static/app.js:124-128 | the candidates are "1", "X", "2" in that order, each with its clamped probability, which lies in [0, 1] |
| Picks.Evs | backend/static/app.js:135 | each candidate's EV is its probability times the odd at the same position, minus 1 |
| Picks.HasThreeOdds | backend/static/app.js:133 | the EV rule applies iff the text is not blank and at least three pieces survive the filter; the reader keeps only the first three |
| Picks.PickByEv | backend/static/app.js:133-140 | the pick is the leftmost candidate of largest EV; its probability, EV text and tone are shown |
| Picks.PickByProbability | backend/static/app.js:141-149 | the shown probability is the largest of the three; the EV is "N/A" and neutral; the pick is "—" iff that probability is below the league's 1X2 threshold, and otherwise the leftmost most probable candidate |
| Picks.Decide1x2 | backend/static/app.js:113-150 | no triple gives ("N/A", "N/A", "—"); exactly three odds decide by largest EV, leftmost on ties; anything else decides by largest probability against the threshold |
| Picks.RefreshClientKpis | backend/static/app.js:153-156 | 1X2 follows `refreshKPIs_1x2`: no cached triple gives ("N/A", "N/A", "—"); with a triple, three valid odds choose the leftmost largest EV and otherwise the most probable candidate against the threshold. Every other market follows the simple-market rule on the cached single probability: Back, Lay or "—", with the EV text and tone of the single odd, and the probability tile left alone |
| Picks.RefreshReadsOnlyItsCache | backend/static/app.js:153-156 | the 1X2 refresh does not depend on the single cached probability, and the simple markets do not depend on the cached triple |
| Picks.FewOddsAreIgnored | backend/static/app.js:141-149 | for 1X2 without three valid odds, the odds text does not affect the result |
| Picks.TieGoesLeft | backend/static/app.js:136 | on equal largest EVs "1" beats "X" and "X" beats "2" |
| Picks.ThreeOddsExample | backend/static/app.js:133-140 | odds [2.5, 3.2, 2.8] against {0.40, 0.28, 0.32} pick "1" at 40%, EV 0 shown unsigned, positive tone |
| Picks.BelowThresholdExample | backend/static/app.js:141-149 | {0.30, 0.35, 0.35} in the Premier League without three odds shows 35% and picks "—" |
| Picks.LabelsDistinct | backend/static/app.js:105-107 | different picks have different tile texts ("Back", "Lay", "1", "X", "2", "—") |
| Response.HasNestedProbs | backend/static/app.js:232 | the nested form is used iff `probs` is a field holding an object or an array; a null `probs` falls back to the flat fields |
| Response.RawTriple | backend/static/app.js:231-236 | nested: the `home`, `draw` and `away` fields of `probs`; flat: `p1`, then `px`, else `pX`, else `draw` (skipping only null or missing), then `p2` |
| Response.Get | backend/static/app.js:233-235 | a property is present iff the value is an object with that key, and then it is that field's value |
| Response.AsNumber | backend/static/app.js:237 | a number is read iff the value is present and a JSON number |
| Response.Coalesce | backend/static/app.js:235 | `a ?? b` is `a` unless `a` is null or missing, else `b` |
| Response.Normalise | backend/static/app.js:227-242 | a null reply fails; otherwise both caches are cleared and only the current market's cache is set, only from numeric fields, and always clamped into [0, 1] |
| Response.DrawFieldPriority | backend/static/app.js:235 | the flat draw value is `px`, else `pX`, else `draw`, skipping only null or missing fields |
| Response.NonNumericPxBlocksTriple | backend/static/app.js:235-239 | a string `px` hides a numeric `pX`, so no triple is stored |
| Response.NestedWins | backend/static/app.js:232-233 | a nested `probs` object is used instead of the flat fields |
| Response.CandidatesOfNormalisedTriple | backend/static/app.js:238 | a stored triple is already clamped, so the 1X2 candidates carry it unchanged |
| Response.OnReply | backend/static/app.js:227-263 | the tiles show "Error" iff there is no reply or it is null, and then both caches are empty. Otherwise the stored caches are exactly what normalising the reply gives, every cached value is in [0, 1], and the probability tile is written. The pick, EV text and tone are those of the dispatcher on the new caches; for 1X2 the whole screen is the dispatcher's |
| Response.ServerReplyNeverFillsTriple | backend/main.py:40-43 | a reply shaped like the server's (`prob`, `ev`, `pick` only) caches the clamped `prob` for a simple market, but for 1X2 stores nothing and shows ("N/A", "N/A", "—") |
| Verdict.SelectProbability | backend/main.py:61-70 | 1X2 uses the selected outcome, home when none is given; over-2.5 and BTTS use their own probabilities; spread uses the home win |
| Verdict.SpreadIsDefaultHome | backend/main.py:61-70 | spread is judged on the same probability as 1X2 with no selection |
| Verdict.ServerEV | backend/main.py:72 | the EV is present iff an odd above 0 is given, and then EV + 1 = p × odd |
| Verdict.Decide | backend/main.py:73 | "A favor" iff EV > 0 or p >= 0.52; "En contra" iff not that and p <= 0.40; "No apostar" iff neither |
| Verdict.Predict | backend/main.py:61-73 | the probability is the selected one; the EV is present iff a positive odd is given, and then EV + 1 = p × odd; the verdict is "A favor" iff p >= 0.52 or p > 1/odd for a positive odd, "En contra" iff not that and p <= 0.40, and "No apostar" iff neither |
| Verdict.VerdictMonotone | backend/main.py:72-73 | for a fixed odd, a larger probability never moves the verdict towards "En contra" |
| Verdict.ServerEvMatchesClient | backend/main.py:72 | for the same probability and the odd the client sends (the single reader's), the server EV equals the client EV |
| Verdict.ZeroEvDisagreement | backend/main.py:72-73 | at p = 0.5 and odd 2 the EV is 0: a simple market on the client picks Back, while the server says "No apostar" |
| Verdict.VerdictExamples | backend/main.py:73 | a positive EV wins at p = 0.30; p = 0.30 without EV is "En contra"; p = 0.52 is "A favor"; p = 0.45 with a negative EV is "No apostar"; the first two read "A favor" and "En contra" |
| Verdict.TextsDistinct | backend/main.py:73 | the three verdicts have different texts |

## Left out

- `parseFloat`: its character grammar is not modelled. It is the parameter `parse`, and the example lemmas fix the values it gives on their pieces.
- `toFixed(2)`: the digit rendering is not modelled. The probability and EV tiles carry the percentage as a real.
- NaN and ±Infinity: not modelled, because reals have neither. A JSON number is always finite here.
- The reduce's `?? -Infinity` fallback: it never applies, because all three EVs exist when three odds are present.
- Market: a four-valued enum (1x2, over25, btts, spread), matching the server's accepted values. Arbitrary strings in the market selector are not modelled.
- The DOM: element lookups, `textContent` writes and `classList` changes become the returned `Kpis` record. The missing-element guards (`oddsInput?.`, `if (!evKpi) return`) are not modelled; the odds field is always present.
- Picks.PickByEv, Picks.TieGoesLeft: EVs and the reduce's `>=` are exact over the reals. The rounding of `p × o − 1` in IEEE-754 doubles is not modelled, so exact ties and the EV = 0 boundary can fall differently. For {0.32, 0.28, 0.10} with odds "2.8 3.2 2.0" the first two EVs are equal here and the pick is "1"; in doubles they are −0.10400000000000009 and −0.10399999999999987, and the source picks "X".
- The loading placeholders, `loadTeams`/`populateTeams`, the form-reset handler and the event-listener wiring: UI plumbing with no decision logic.
- `fetch` and `res.json()`: their failure is the `None` reply of `Response.OnReply`. HTTP status codes are not modelled.
- The race between overlapping submit requests: asynchronous ordering, not decision logic.
- The goal model in backend/services/datacenter.py (CSV loading, group-by means, Poisson probabilities): floating-point numerics over an external dataset. Its probabilities are the inputs of `Verdict.Predict`.
- FastAPI setup, CORS, the static mount, `/health`, `/api/markets`, the pydantic models, and the `round(...)` calls of main.py:74: framework code and float rendering. The client therefore caches `round(p, 4)` rather than `p` itself; `Verdict.ServerEvMatchesClient` compares the two EVs for the same probability.
- The selection and the market are enums with exactly the values the request model accepts (main.py:36-37). Any other string is rejected when the request is validated, before `predict` runs, so `.lower()` never changes a selection.
- The EV tile's tone on the error screen: the error path (app.js:256-263) does not call `setEvTone`, so the tile keeps its previous tone. `Response.Screen` has no tone for `ShowingError`.
