# SmartTrip AI front-end: a Dafny model of its client-side rules

SmartTrip AI is a React travel planner. Its optimiser runs on a remote server, so
the browser code does little computation. This project models what it does
compute:

- the tier colour of a 0–10 sub-score in `ScoreBar`, and of a 0–100 option score
  and a comfort level on the results page;
- the `badges` table that turns an optimisation level into a badge;
- the marking of the recommended option in `OptionComparison`, and which option a
  click selects;
- the results page's demonstration data and its single expanded card
  (`expandedId` / `handleExpandClick`);
- the trip form's state: each handler replaces one field, `normalizarPesos`
  rescales the three weights, and `getMinReturnDate` gives the earliest return
  date;
- the API client: the `numero_opcoes: 3` extension of the multi-option request,
  the single/multiple dispatch, the error message chosen for a non-OK answer, and
  `optimizeCompleteTrip`, which makes the outbound call and then, for a round trip,
  the return call.

Modules, one per source file, plus four helper modules:

| module | file | models |
|---|---|---|
| `Wrappers` | wrappers.dfy | `T \| null` and a settled promise (`Result`) |
| `JsString` | js_string.dfy | JavaScript's `<` / `>` on strings and `toLowerCase` |
| `IsoDate` | iso_date.dfy | RFC 3339 `full-date` strings. The lemma `LessIsChronological` proves that string order is calendar order (RFC 3339, section 5.1). The module also models the values an HTML date input holds, whose year may have more than four digits. |
| `Palette`, `ScoreBar` | score_bar.dfy | MUI colour names; components/smarttrip/ScoreBar.tsx |
| `OptimizationBadge` | optimization_badge.dfy | components/smarttrip/OptimizationBadge.tsx |
| `Api` | api.dfy | services/api.ts; the `CombinedTravelResult` shape of contexts/TripContext.tsx |
| `OptionComparison` | option_comparison.dfy | components/smarttrip/OptionComparison.tsx |
| `Resultados` | resultados.dfy | pages/smartTrip-AI/resultados.tsx |
| `Viagens` | viagens.dfy | pages/smartTrip-AI/viagens.tsx |

State that the source changes in place is held in classes:

- `Resultados.ExpandState` holds `expandedId`.
- `Viagens.TravelForm` holds `formData`, a map from the form's field names to JavaScript values.
- `Api.Backend` stands for the server. It holds the log of calls made to it, and
  function-valued constants that give its answer to the call at each position of
  the log. The answer is a success, a non-OK status with an error body, or a
  rejection.

Pure code is written as functions and lemmas. The clock is a parameter: `today`
is the date string `getToday` would return.

## Model

| member | source | states |
|---|---|---|
| `ScoreBar.Percentage` | SmartTravel_AI/full-version/src/components/smarttrip/ScoreBar.tsx:13 | The bar value is score × 10. A score in [0, 10] gives a value in [0, 100]. |
| `ScoreBar.GetColor` | SmartTravel_AI/full-version/src/components/smarttrip/ScoreBar.tsx:14-18 | `success` iff score ≥ 7, `warning` iff 5 ≤ score < 7, `error` iff score < 5. Each score gets exactly one tier. |
| `ScoreBar.GetColorMonotone` | SmartTravel_AI/full-version/src/components/smarttrip/ScoreBar.tsx:13-18 | A higher score never gets a worse tier and never gets a shorter bar. |
| `ScoreBar.GetColorBoundaries` | SmartTravel_AI/full-version/src/components/smarttrip/ScoreBar.tsx:15-17 | 7 is `success`, 6.9 is `warning`, 5 is `warning`, 4.9 is `error`. Every negative score is `error`. |
| `ScoreBar.Render` | SmartTravel_AI/full-version/src/components/smarttrip/ScoreBar.tsx:20-43 | The bar shows the given label, the value score × 10, and the `getColor` tier. |
| `OptimizationBadge.Badges` | SmartTravel_AI/full-version/src/components/smarttrip/OptimizationBadge.tsx:12-50 | The table is total over the five levels. The title is 'Solução Ótima' iff the level is `otima`, and 'Sem Solução' iff it is `erro`. |
| `OptimizationBadge.StarsDecrease` | SmartTravel_AI/full-version/src/components/smarttrip/OptimizationBadge.tsx:16-44 | Stars are 5, 4, 3, 2 from `otima` to `basica`, so a better level shows strictly more stars. `erro` shows no star. |
| `OptimizationBadge.BadgesInjective` | SmartTravel_AI/full-version/src/components/smarttrip/OptimizationBadge.tsx:12-47 | Different levels have different titles, colours and background colours. |
| `OptimizationBadge.Render` | SmartTravel_AI/full-version/src/components/smarttrip/OptimizationBadge.tsx:50-80 | The badge shows its level's table entry, and the note exactly as given. |
| `Api.ErrorMessage` | SmartTravel_AI/full-version/src/services/api.ts:135-138 | An unparseable body gives "Erro desconhecido". A truthy `detail` is used as the message. Otherwise the message is "Erro ao otimizar viagem". The message is never empty. |
| `Api.SettleOptimize` | SmartTravel_AI/full-version/src/services/api.ts:126-141 | The call succeeds exactly on an OK answer, and then returns its body. A non-OK answer fails with `ErrorMessage`. A rejection fails with its own message. |
| `Api.SettleDates` | SmartTravel_AI/full-version/src/services/api.ts:115-123 | Any non-OK answer fails with the fixed message "Erro ao buscar datas disponíveis", whatever its body. An OK answer returns its body. |
| `Api.WithOptions` | SmartTravel_AI/full-version/src/services/api.ts:145 | The multi-option payload has `numero_opcoes` = 3. Every other field equals the input's. |
| `Api.WithOptionsOverrides` | SmartTravel_AI/full-version/src/services/api.ts:145 | Any `numero_opcoes` the caller supplied is overridden. Extending twice is the same as extending once. |
| `Api.Dispatch` | SmartTravel_AI/full-version/src/services/api.ts:167-176 | Mode `single` posts the payload unchanged to `/optimize`. Mode `multiple` posts the extended payload to `/optimize-multiple`. |
| `Api.CompleteTrip` | SmartTravel_AI/full-version/src/services/api.ts:179-201 | The outcome of `optimizeCompleteTrip` and the calls it leaves in the log. The old log is kept, and one or two calls are added. On success, the last call is the return call when there is a return payload, and the outbound call otherwise. |
| `Api.CompleteTripCalls` | SmartTravel_AI/full-version/src/services/api.ts:183-191 | Earlier calls in the log are kept. The outbound call is always made first. A return call is made second exactly when there is a return payload and the outbound call succeeded. There are never more than two calls. |
| `Api.CompleteTripResult` | SmartTravel_AI/full-version/src/services/api.ts:185-196 | The trip succeeds iff every call it made succeeded. Then `ida` is the outbound answer. `volta` is null iff `payloadVolta` is null, and otherwise it is the return answer. |
| `Api.CompleteTripOutboundFailure` | SmartTravel_AI/full-version/src/services/api.ts:185-199 | If the outbound call fails, the trip fails with its message and no return call is made. |
| `Api.CompleteTripReturnFailure` | SmartTravel_AI/full-version/src/services/api.ts:189-199 | If the return call fails, the whole trip fails with its message. No `{ida, volta: null}` is returned. |
| `Api.Backend.GetAvailableDatesCall` | SmartTravel_AI/full-version/src/services/api.ts:115-123 | Logs one GET and settles it by `SettleDates`. |
| `Api.Backend.OptimizeTrip` | SmartTravel_AI/full-version/src/services/api.ts:126-141 | Logs one POST to `/optimize` carrying the payload unchanged, and settles it by `SettleOptimize`. |
| `Api.Backend.OptimizeTripMultiple` | SmartTravel_AI/full-version/src/services/api.ts:144-161 | Logs one POST to `/optimize-multiple` carrying `WithOptions(payload)`, and settles it by `SettleOptimize`. |
| `Api.Backend.OptimizeTripWithMode` | SmartTravel_AI/full-version/src/services/api.ts:167-176 | Logs exactly the call `Dispatch` names, and returns that call's outcome. |
| `Api.Backend.OptimizeCompleteTrip` | SmartTravel_AI/full-version/src/services/api.ts:179-201 | Its result and the calls it logs are exactly those of `CompleteTrip`, so the four `CompleteTrip*` lemmas hold for it. |
| `OptionComparison.CardFor` | SmartTravel_AI/full-version/src/components/smarttrip/OptionComparison.tsx:41-163 | A card is recommended iff its option's id equals `recomendacao`. Its button is `contained` iff it is recommended. The advantage and disadvantage blocks appear iff their lists are non-empty. The three bars show cost, time and comfort × 10. |
| `OptionComparison.Cards` | SmartTravel_AI/full-version/src/components/smarttrip/OptionComparison.tsx:40-168 | One card per option, in input order. The card at position i is the card of option i. |
| `OptionComparison.ClickSelectsOwnOption` | SmartTravel_AI/full-version/src/components/smarttrip/OptionComparison.tsx:58 | Clicking card i passes exactly option i to `onSelect`. |
| `OptionComparison.RecommendedIffIdMatches` | SmartTravel_AI/full-version/src/components/smarttrip/OptionComparison.tsx:41 | Card i is marked, and its button is `contained`, iff option i's id equals `recomendacao`. |
| `OptionComparison.NoFallback` | SmartTravel_AI/full-version/src/components/smarttrip/OptionComparison.tsx:41 | If `recomendacao` matches no option id, no card is marked. |
| `OptionComparison.AtMostOneRecommended` | SmartTravel_AI/full-version/src/components/smarttrip/OptionComparison.tsx:40-41 | If the option ids are pairwise distinct, at most one card is marked. |
| `Resultados.MockResults` | SmartTravel_AI/full-version/src/pages/smartTrip-AI/resultados.tsx:73-209 | The three demonstration options with the page's exact values. Their consistency and ranking are stated by the next two rows. |
| `Resultados.MockResultsConsistent` | SmartTravel_AI/full-version/src/pages/smartTrip-AI/resultados.tsx:73-209 | In every demonstration option, `custo_total` = outbound fare + return fare + hotel total + car total + meal total. Each hotel and car total is 15 × its daily rate. |
| `Resultados.MockResultsRanked` | SmartTravel_AI/full-version/src/pages/smartTrip-AI/resultados.tsx:73-209 | There are three demonstration options. Their scores strictly decrease and their ids are distinct. |
| `Resultados.GetScoreColor` | SmartTravel_AI/full-version/src/pages/smartTrip-AI/resultados.tsx:231-235 | `success` iff score ≥ 90, `warning` iff 80 ≤ score < 90, `error` iff score < 80. |
| `Resultados.GetScoreColorMonotone` | SmartTravel_AI/full-version/src/pages/smartTrip-AI/resultados.tsx:231-235 | A higher score never gets a worse tier. |
| `Resultados.GetConfortoColor` | SmartTravel_AI/full-version/src/pages/smartTrip-AI/resultados.tsx:220-229 | `success` iff the lower-cased level is 'alto', `warning` iff it is 'médio', `default` otherwise. |
| `Resultados.GetConfortoColorCaseInsensitive` | SmartTravel_AI/full-version/src/pages/smartTrip-AI/resultados.tsx:221 | A level and its lower-cased form get the same colour. |
| `Resultados.GetConfortoColorOfMockLevels` | SmartTravel_AI/full-version/src/pages/smartTrip-AI/resultados.tsx:220-229 | 'Alto' and 'ALTO' give `success`. 'Médio' and 'MÉDIO' give `warning`. 'Básico' gives `default`. |
| `Resultados.Toggle` | SmartTravel_AI/full-version/src/pages/smartTrip-AI/resultados.tsx:216-218 | After a click on id, nothing is expanded iff id was the expanded card. Otherwise id is the expanded card. |
| `Resultados.ToggleProperties` | SmartTravel_AI/full-version/src/pages/smartTrip-AI/resultados.tsx:217 | Opening a card and clicking it again closes it. Clicking another card expands that card. After a click on id, no other card is expanded. |
| `Resultados.ExpandState.constructor` | SmartTravel_AI/full-version/src/pages/smartTrip-AI/resultados.tsx:214 | `expandedId` starts as null. |
| `Resultados.ExpandState.HandleExpandClick` | SmartTravel_AI/full-version/src/pages/smartTrip-AI/resultados.tsx:216-218 | The new state is `Toggle` of the old one. The clicked card's open state flips, and every other card is closed. |
| `Resultados.ResultCards` | SmartTravel_AI/full-version/src/pages/smartTrip-AI/resultados.tsx:268-393 | One card per option, in order. Only index 0 gets the best-option highlight. A card's details are open iff `expandedId` is its id. |
| `Resultados.AtMostOneOpen` | SmartTravel_AI/full-version/src/pages/smartTrip-AI/resultados.tsx:393 | If the ids are distinct, at most one card's details are open. |
| `Resultados.MockResultCards` | SmartTravel_AI/full-version/src/pages/smartTrip-AI/resultados.tsx:268-346 | On the demonstration data, only the first card is highlighted. Score colours are success, warning, warning. Comfort colours are success, warning, default. |
| `JsString.ToLower` | SmartTravel_AI/full-version/src/pages/smartTrip-AI/resultados.tsx:221 | Lower-casing keeps the length and lowers each character. |
| `JsString.ToLowerIdempotent` | SmartTravel_AI/full-version/src/pages/smartTrip-AI/resultados.tsx:221 | Lower-casing twice is the same as lower-casing once. |
| `IsoDate.LessIsChronological` | SmartTravel_AI/full-version/src/pages/smartTrip-AI/viagens.tsx:110 | For two `YYYY-MM-DD` dates, JavaScript's string `<` holds iff the first is the earlier calendar day. |
| `IsoDate.ParseInjective` | SmartTravel_AI/full-version/src/pages/smartTrip-AI/viagens.tsx:110 | Two full-dates are equal strings iff they name the same day. |
| `Viagens.InitialFormData` | SmartTravel_AI/full-version/src/pages/smartTrip-AI/viagens.tsx:65-86 | The initial form has every field. Its weights sum to 1. Both dates are empty. |
| `Viagens.Assign` | SmartTravel_AI/full-version/src/pages/smartTrip-AI/viagens.tsx:90 | `{...form, [field]: value}`: the named field gets the value and every other field keeps its own. |
| `Viagens.WeightTotal` | SmartTravel_AI/full-version/src/pages/smartTrip-AI/viagens.tsx:122 | The total is the sum of the three weights when all three are numbers. |
| `Viagens.Normalized` | SmartTravel_AI/full-version/src/pages/smartTrip-AI/viagens.tsx:121-131 | If the total is ≤ 0, the form is unchanged. Otherwise each weight is divided by the total. No field other than the three weights ever changes. |
| `Viagens.NormalizedSumsToOne` | SmartTravel_AI/full-version/src/pages/smartTrip-AI/viagens.tsx:126-128 | After a normalisation that applied, the weights sum to 1 in exact arithmetic. |
| `Viagens.NormalizedIdempotent` | SmartTravel_AI/full-version/src/pages/smartTrip-AI/viagens.tsx:121-131 | Normalising twice gives the same form as normalising once. |
| `Viagens.MinReturnDate` | SmartTravel_AI/full-version/src/pages/smartTrip-AI/viagens.tsx:108-111 | The result is one of its two inputs. It is today when `data_ida` is empty. It is never before today, and never before `data_ida` when that is set. It is `data_ida` only when `data_ida` is later than today. |
| `Viagens.MinReturnDateFiveDigitYear` | SmartTravel_AI/full-version/src/pages/smartTrip-AI/viagens.tsx:107-110 | "20000-01-01" and "2026-10-18" are both date-input values, and the first is the later day. The string rule still returns "2026-10-18", while the calendar rule returns "20000-01-01". |
| `Viagens.MinReturnDateByDay` | SmartTravel_AI/full-version/src/pages/smartTrip-AI/viagens.tsx:107 | The departure date or today, whichever is the later calendar day. For any two date-input values, the result is never before either day. It is the departure date iff that day is after today or equals it. |
| `Viagens.MinReturnDateByDayAgrees` | SmartTravel_AI/full-version/src/pages/smartTrip-AI/viagens.tsx:107-110 | On two dates with four-digit years, the calendar rule and the string rule give the same result. |
| `Viagens.MinReturnDateIsLaterDay` | SmartTravel_AI/full-version/src/pages/smartTrip-AI/viagens.tsx:107-111 | On well-formed dates, the minimum return date is the later calendar day of the departure date and today. |
| `Viagens.TravelForm.constructor` | SmartTravel_AI/full-version/src/pages/smartTrip-AI/viagens.tsx:65-86 | The form starts as `InitialFormData`. |
| `Viagens.TravelForm.HandleInputChange` | SmartTravel_AI/full-version/src/pages/smartTrip-AI/viagens.tsx:88-91 | The named field gets `event.target.value`. Every other field is unchanged. |
| `Viagens.TravelForm.HandleSwitchChange` | SmartTravel_AI/full-version/src/pages/smartTrip-AI/viagens.tsx:93-95 | The named field gets the boolean `checked`. Every other field is unchanged. |
| `Viagens.TravelForm.HandleSliderChange` | SmartTravel_AI/full-version/src/pages/smartTrip-AI/viagens.tsx:97-99 | The named field gets the slider's number or number list. Every other field is unchanged. |
| `Viagens.TravelForm.SelectFoodCostType` | SmartTravel_AI/full-version/src/pages/smartTrip-AI/viagens.tsx:350-356 | `tipo_custo_alimentacao` becomes 'nivel' or 'valor'. Every other field is unchanged. |
| `Viagens.TravelForm.NormalizarPesos` | SmartTravel_AI/full-version/src/pages/smartTrip-AI/viagens.tsx:121-131 | The new form is `Normalized` of the old one. Only the three weights may change. |

## Left out

- JSX rendering, MUI styling and icons, routing and the app shell, the header,
  the footer, and the static pages (home, sobre, dicas): they hold no rule.
- `fetch`, URLs, headers and JSON (de)serialisation in api.ts. The server is
  `Api.Backend`, whose answer to each call is a parameter. `console.error` is
  dropped.
- Api.ErrorMessage: the error body is assumed to parse to a JSON object. Two
  cases are not modelled:
  - A body that parses to `null` makes `error.detail` throw a `TypeError`, so the
    promise rejects with the engine's message, not "Erro ao otimizar viagem".
  - A `detail` that is not a string, for example a list of validation errors,
    would be stringified by `new Error`.

  In the model, `detail` is a string or missing.
- The clock: `getToday` reads `new Date().toISOString()` (a UTC date). The model
  takes `today` as a parameter.
- Viagens.MinReturnDate: the source reads the clock up to twice. The model reads
  it once, so it does not cover a day boundary between the two reads.
- JsString.Less compares Unicode scalar values. JavaScript compares UTF-16 code
  units. The two orders differ only beyond the Basic Multilingual Plane; dates
  and city codes are ASCII.
- JsString.ToLower lowers only the Basic Latin and Latin-1 capitals, which covers
  every level name the page uses. The rest of Unicode case mapping is not
  modelled.
- Floating point: scores, prices and weights are exact reals.
  ScoreBar.Percentage is exactly score × 10, while `(score / 10) * 100` in
  floating point can differ in the last bit. Viagens.NormalizedSumsToOne holds in
  exact arithmetic only.
- Viagens.NormalizedIdempotent: holds in exact arithmetic only. In floating
  point, the weights (0, 0.1, 0.3) sum to 0.9999999999999999 after one press, so
  a second press changes them again.
- `toFixed` and `toLocaleString('pt-BR')` formatting (`formatCurrency`): these
  are library calls that only format values.
- Viagens.WeightTotal: when a weight is not a number, the model leaves the form
  unchanged. JavaScript would coerce (`+` on strings concatenates). Only sliders
  write the weights, and sliders always give numbers.
- `handleSubmit` only logs and navigates. SingleResult.tsx only displays server
  values. TripContext.tsx is provider plumbing; only its `CombinedTravelResult`
  shape is used.

## Findings

| source | as written | input that shows it | evidently intended | confidence | as-written member | corrected member |
|---|---|---|---|---|---|---|
| SmartTravel_AI/full-version/src/pages/smartTrip-AI/viagens.tsx:107-110 | The later of the departure date and today is found with string `>`. | A departure of "20000-01-01" (a date input accepts years of five or more digits) with today "2026-10-18": the string rule returns "2026-10-18", before the departure. | The later calendar day, as the comment on line 107 says. | not executed | `Viagens.MinReturnDateFiveDigitYear` (about `Viagens.MinReturnDate`) | `Viagens.MinReturnDateByDay`, with `Viagens.MinReturnDateByDayAgrees` |

`Viagens.MinReturnDate` stays the model of what the page computes. On
four-digit years the corrected rule gives the same date
(`Viagens.MinReturnDateByDayAgrees`).
