# SastaLoad freight quote and business onboarding, modelled in Dafny

This project models the logic core of a freight-booking web front end. It has three parts:

- **The quote service** (`services/geminiService.ts`). `getFallbackQuote` is a deterministic local estimator: it derives a
  pseudo-distance from the lengths of the lower-cased place names and the parsed weight. From that it computes the
  target bid, price range, fuel cost, demand label, drive time and vehicle class. `getSmartQuote` asks a remote model
  first. When the call throws, returns no text, or returns text that is not JSON, it falls back to the estimator.
- **The freight calculator widget** (`components/Calculator.tsx`). It holds the city suggestions for the origin and
  destination fields, the submit gate that requires four fields, the loading-message counter that cycles while a quote
  is pending, and the state reset around a quote request.
- **The business onboarding wizard** (`components/ForBusiness.tsx`). This is a three-step modal form. It covers the
  requirement list toggled chip by chip, the input handler that writes one named field, Next/Back, the submit guard on
  the agreement checkbox, and closing the modal.

Files:

- `js_builtins.dfy` (module `JsBuiltins`): the parts of the JavaScript runtime the core relies on, each with its own
  properties.
  - `String.prototype.toLowerCase`: ASCII letters and U+0130, the one character whose lower-case form has two code
    units.
  - `String.prototype.includes`.
  - `Array.prototype.filter`.
  - `parseFloat`, for decimal numerals.
  - `Math.round`, over exact reals.
- `gemini_service.dfy` (modules `GeminiService` and `GeminiServiceExamples`): the estimator as a pure function with
  its bounds, its monotonicity and its invariances. `getSmartQuote` is modelled as a choice between a `Result` of the
  try block and the estimate. The worked examples sit in a module of their own.
- `calculator.dfy` (module `Calculator`): the suggestion filter as a pure function, and the widget as a class whose
  fields are the React state and whose methods are the handlers. Each handler is combined with the effect that re-runs
  because of it. The suggestion function takes the city list as an argument; the widget keeps it in a constant field
  that the constructor sets to the fifteen major cities. The class invariant says:
  - the loading counter indexes the message list and rests at 0 while idle;
  - each suggestion list is the filter of its field's current text.
- `for_business.dfy` (module `ForBusiness`): the form record, the toggle on the requirement list, and the wizard as a
  class. Its invariant says:
  - the step stays in 1..3;
  - the requirement list holds offered chips only, each at most once.

The model follows the code where it departs from the intended behaviour described for the service:

- **No credential check.** `getSmartQuote` has no credential check. It always attempts the remote call, and the build
  configuration defaults the key to the empty string (`vite.config.ts:8`). A missing key therefore shows up only as a
  failed call, which falls back like any other failure.
- **The seed is not a hash of the request.** The distance seed is the sum of the two lower-cased name lengths
  (`geminiService.ts:7-9`). Distinct lanes collide: Karachi–Lahore and Sukkur–Sialkot both get 889 km
  (`DifferentLanesCollide`). Cargo type and date never influence the estimate.
- **The code's own constants are used.**
  - The distance range is 200–1499 km.
  - The heavy rate starts above 7 tons.
  - The demand label is "High Demand" above 900 km, else "Stable".

## Model

| member | source | states |
|---|---|---|
| JsBuiltins.LowerCaseLength | services/geminiService.ts:7-8 | the lower-cased name is as long as the name plus one extra code unit per dotted capital I |
| JsBuiltins.LowerCaseIgnoresAsciiCase | services/geminiService.ts:7-8 | names that differ only in ASCII letter case lower-case to the same string |
| JsBuiltins.LowerCaseIdempotent | components/Calculator.tsx:26 | lower-casing twice is lower-casing once |
| JsBuiltins.LowerCaseNoAsciiCapitals | services/geminiService.ts:7-8 | lower-cased text holds no ASCII capital letter |
| JsBuiltins.LowerCaseAt | components/Calculator.tsx:26 | without a dotted capital I, lower-casing keeps the length and folds each character in place |
| JsBuiltins.LowerCaseMentions | components/Calculator.tsx:26 | every character of the lower-case form, except the two a dotted capital I becomes, is the fold of a character of the original |
| JsBuiltins.IncludesAt | components/Calculator.tsx:26 | `includes` holds exactly when the needle occurs at some position of the text |
| JsBuiltins.IncludesCharacters | components/Calculator.tsx:26 | every character of an included needle occurs in the text |
| JsBuiltins.Filter | components/Calculator.tsx:26 | the filter keeps exactly the elements passing the test, with their multiplicities, as a subsequence of the input |
| JsBuiltins.ParseFloatDecimal | services/geminiService.ts:6 | parseFloat reads back every decimal numeral of a natural number as its value |
| JsBuiltins.ParseFloatDigits | services/geminiService.ts:6 | a non-empty run of digits parses to its integer value |
| JsBuiltins.FractionValue | services/geminiService.ts:6 | the digits after the decimal point contribute a proper fraction, in 0 ≤ f < 1 |
| JsBuiltins.ParseFloatFraction | services/geminiService.ts:6 | `n.f` followed by anything but a digit parses to n + (value of f) / 10^(length of f); the trailing text is ignored |
| JsBuiltins.ParseFloatNegativeFraction | services/geminiService.ts:6 | `-n.f` followed by anything but a digit parses to the negation of the same value |
| JsBuiltins.ParseFloatSkipsWhiteSpace | services/geminiService.ts:6 | leading white space never changes what parseFloat reads |
| JsBuiltins.ParseFloatNaN | services/geminiService.ts:6 | text that does not start, after white space, with a sign, digit or '.' parses to NaN |
| JsBuiltins.MathRound | services/geminiService.ts:12 | Math.round gives the integer within half a unit, halves rounded up |
| JsBuiltins.MathRoundMonotone | services/geminiService.ts:28 | Math.round never reverses the order of two numbers |
| GeminiService.WeightTons | services/geminiService.ts:6 | the weight is the parsed number, except that NaN and zero become 1; the weight is never zero |
| GeminiService.DistanceKm | services/geminiService.ts:9 | the pseudo-distance lies in 200..1499 km |
| GeminiService.VehicleFor | services/geminiService.ts:16-20 | each vehicle class is chosen exactly on its weight interval: up to 1.5, to 3.5, to 8, to 25, above 25 tons |
| GeminiService.EstimatedHours | services/geminiService.ts:28 | the hours are the distance over 45 km/h plus 3, rounded to the nearest integer |
| GeminiService.FuelCost | services/geminiService.ts:13 | the fuel cost is 48% of the bid, rounded to the nearest integer |
| GeminiService.FallbackQuote | services/geminiService.ts:5-32 | distance in range; bid = distance × (290 if over 7 tons else 145); 0 < low price < bid < high price; 0 < fuel < bid; high demand exactly above 900 km; 7..36 hours; vehicle from the weight |
| GeminiService.HoursBounds | services/geminiService.ts:28 | over 200..1499 km the time is between 7 and 36 hours |
| GeminiService.HoursMonotone | services/geminiService.ts:28 | a longer distance never gives a shorter time |
| GeminiService.DemandMonotone | services/geminiService.ts:26 | demand is high exactly above 900 km, so a longer distance never turns high demand into stable |
| GeminiService.DistanceBySeedSum | services/geminiService.ts:7-9 | lanes with equal seed-length sums get the same distance |
| GeminiService.DistancePeriodic | services/geminiService.ts:7-9 | two lanes whose seed-length sums are 1300 apart get the same distance |
| GeminiService.FallbackDependsOnlyOnSeedAndWeight | services/geminiService.ts:5-32 | the estimate is determined by the seed-length sum and the parsed weight alone |
| GeminiService.FallbackIgnoresCargoAndDate | services/geminiService.ts:5-32 | changing cargo type or date never changes the estimate |
| GeminiService.FallbackSymmetric | services/geminiService.ts:7-9 | the return trip gets the same estimate |
| GeminiService.FallbackIgnoresAsciiCase | services/geminiService.ts:7-8 | place names written in different ASCII case get the same estimate |
| GeminiService.UnparsedWeightIsOneTon | services/geminiService.ts:6 | a weight that is NaN or zero is priced and classed exactly as "1" |
| GeminiService.OneTon | services/geminiService.ts:6 | the text "1" is one ton |
| GeminiService.TargetBidMonotoneInWeight | services/geminiService.ts:11-12 | a heavier load never gets a lower bid, and crossing 7 tons exactly doubles it (the rate goes from 145 to 290 per km) |
| GeminiService.TargetBidMonotoneInDistance | services/geminiService.ts:12 | a longer distance never gets a lower bid |
| GeminiService.VehicleMonotone | services/geminiService.ts:16-20 | a heavier load is never given a smaller vehicle |
| GeminiService.SeedLengthOfPlainName | services/geminiService.ts:7 | without a dotted capital I, the seed is the name's own length |
| GeminiService.RemoteAttempt | services/geminiService.ts:83-85 | the try block yields a quote exactly when the call returns non-empty text that parses, and that quote is the parsed value; it reports no data exactly for missing or empty text |
| GeminiService.SmartQuote | services/geminiService.ts:34-89 | the model's answer is used exactly when the try block succeeds; otherwise the result is the local estimate for the same request |
| GeminiService.SmartQuoteAbsorbsErrors | services/geminiService.ts:86-88 | every error raised in the try block ends in the local estimate |
| GeminiService.EmptyResponseFallsBack | services/geminiService.ts:84 | missing or empty response text falls back, whatever the parser would do |
| GeminiService.ModelAnswerIsParsedText | services/geminiService.ts:85 | a used model answer is exactly the parsed text, unvalidated |
| GeminiServiceExamples.KarachiLahoreDistance | services/geminiService.ts:7-9 | Karachi to Lahore is 889 km |
| GeminiServiceExamples.SukkurSialkotDistance | services/geminiService.ts:7-9 | Sukkur to Sialkot is 889 km |
| GeminiServiceExamples.ThreeTons | services/geminiService.ts:6 | the text "3" is three tons |
| GeminiServiceExamples.ThreeTonsOver889Km | services/geminiService.ts:9-31 | 889 km with 3 tons gives bid 128905, range 118592.6–139217.4, fuel 61874, "Stable", 23 hours, Shehzore |
| GeminiServiceExamples.KarachiToLahore | services/geminiService.ts:5-32 | the full estimate for Karachi to Lahore with 3 tons of general goods |
| GeminiServiceExamples.DifferentLanesCollide | services/geminiService.ts:7-9 | two different lanes get the same distance |
| Calculator.Offered | components/Calculator.tsx:26 | a city is offered exactly when it is listed, contains the query case-insensitively, and is not the query itself; offers keep list order |
| Calculator.OfferedIsFilter | components/Calculator.tsx:26 | the offered list is the array filter with the suggestion test |
| Calculator.SuggestionsSpec | components/Calculator.tsx:24-38 | for the origin and the destination field alike: queries of at most one character get no suggestions; longer ones get exactly the offered cities, in list order |
| Calculator.PickedSuggestion | components/Calculator.tsx:113 | a picked suggestion differs from the query, is not suggested for itself, and from the major cities leaves no suggestions |
| Calculator.MissingLetterNotOffered | components/Calculator.tsx:26 | a city lacking, in either case, one letter of the query is not offered for it |
| Calculator.NothingOfferedMeansNoSuggestions | components/Calculator.tsx:25-29 | when no listed city is offered for the query, the list is empty |
| Calculator.PickedCityHasNoSuggestions | components/Calculator.tsx:136 | once a major city is picked, no major city is suggested for it |
| Calculator.MissingDetailsIgnoresDate | components/Calculator.tsx:61 | the gate passes exactly when origin, destination, cargo type and weight are all non-empty; the date never matters |
| Calculator.SuggestionIsNotQuery | components/Calculator.tsx:26 | a suggestion never equals the text typed |
| Calculator.CityNotSuggestedForItself | components/Calculator.tsx:26 | once a city is the field's text, it is not suggested |
| Calculator.CalculatorWidget.constructor | components/Calculator.tsx:9-22 | every field starts empty, nothing is loading, no result or error, both lists empty |
| Calculator.CalculatorWidget.EditOrigin | components/Calculator.tsx:24-30 | typing sets the origin and its list becomes the suggestions for the new text; the invariant holds |
| Calculator.CalculatorWidget.EditDestination | components/Calculator.tsx:32-38 | typing sets the destination and its list becomes the suggestions for the new text |
| Calculator.CalculatorWidget.EditCargoType | components/Calculator.tsx:154 | only the cargo type changes |
| Calculator.CalculatorWidget.EditWeight | components/Calculator.tsx:179 | only the weight changes |
| Calculator.CalculatorWidget.EditDate | components/Calculator.tsx:193 | only the date changes |
| Calculator.CalculatorWidget.PickOrigin | components/Calculator.tsx:113 | picking a suggestion sets the origin to it; the list is recomputed for the city and no longer offers it, and for the major cities it is empty |
| Calculator.CalculatorWidget.PickDestination | components/Calculator.tsx:136 | picking a suggestion sets the destination to it; the list is recomputed for the city and no longer offers it, and for the major cities it is empty |
| Calculator.CalculatorWidget.Tick | components/Calculator.tsx:50-52 | each tick advances the counter by one modulo 4, keeping it in 0..3 |
| Calculator.CalculatorWidget.BeginEstimate | components/Calculator.tsx:59-70 | with origin, destination, cargo type or weight empty, only the error message is set; otherwise the form's request goes out, loading starts, and the error, result and feedback are cleared |
| Calculator.CalculatorWidget.CompleteEstimate | components/Calculator.tsx:71-78 | the settled quote is shown, loading ends and the counter returns to 0 |
| Calculator.CalculatorWidget.HandleEstimate | components/Calculator.tsx:59-79 | a blocked request changes only the error, leaving loading, the counter and the feedback flag as they were; an accepted one ends showing the smart quote for exactly the form's request, with no error and loading over |
| Calculator.CalculatorWidget.GiveFeedback | components/Calculator.tsx:321-322 | either thumb marks feedback as given |
| Calculator.CalculatorWidget.DismissResult | components/Calculator.tsx:231 | closing the result card clears the result |
| ForBusiness.WithText | components/ForBusiness.tsx:31 | writing a string field changes that field and no other |
| ForBusiness.ApplyInput | components/ForBusiness.tsx:28-32 | the checkbox stores its checked flag and leaves the text fields alone; a text input writes its value into exactly the named field; the requirements never change |
| ForBusiness.Without | components/ForBusiness.tsx:37 | removal drops every occurrence of the requirement and keeps the rest, counts and order |
| ForBusiness.WithoutIsFilter | components/ForBusiness.tsx:37 | removal is the array filter with the inequality test |
| ForBusiness.Toggled | components/ForBusiness.tsx:34-41 | the requirement's membership flips; a present one is removed everywhere and the rest stay in order; an absent one is appended at the end; every other requirement keeps its count |
| ForBusiness.ToggleTwiceRestores | components/ForBusiness.tsx:34-41 | toggling an absent requirement twice restores the list exactly |
| ForBusiness.TogglePreservesNoDuplicates | components/ForBusiness.tsx:34-41 | toggling keeps a duplicate-free list duplicate-free |
| ForBusiness.ToggleTwiceMovesToEnd | components/ForBusiness.tsx:36-39 | toggling a present requirement twice drops every occurrence of it and appends it once at the end |
| ForBusiness.BusinessWizard.constructor | components/ForBusiness.tsx:11-26 | closed, step 1, not submitting, no success; the form has volume "1-10 Loads", cargo "General", no requirements, not agreed |
| ForBusiness.BusinessWizard.OpenRegister | components/ForBusiness.tsx:111 | "Request Access" opens the modal |
| ForBusiness.BusinessWizard.InputChange | components/ForBusiness.tsx:28-32 | the form becomes the input applied to it; the invariant holds |
| ForBusiness.BusinessWizard.SelectCargoType | components/ForBusiness.tsx:224 | a cargo button writes only the cargo type |
| ForBusiness.BusinessWizard.SelectVolume | components/ForBusiness.tsx:234 | a volume button writes only the volume |
| ForBusiness.BusinessWizard.ToggleRequirement | components/ForBusiness.tsx:34-41 | only the requirement list changes, to its toggle; it stays duplicate-free |
| ForBusiness.BusinessWizard.Next | components/ForBusiness.tsx:43 | Next moves exactly one step forward and stays within 1..3 |
| ForBusiness.BusinessWizard.Back | components/ForBusiness.tsx:44 | Back moves exactly one step back and stays within 1..3 |
| ForBusiness.BusinessWizard.Submit | components/ForBusiness.tsx:46-51 | without the agreement nothing changes and nothing is saved; with it submitting starts and exactly the current form is saved once |
| ForBusiness.BusinessWizard.SubmitTimerElapsed | components/ForBusiness.tsx:53-56 | the timer ends submitting and shows success |
| ForBusiness.BusinessWizard.CloseModal | components/ForBusiness.tsx:59-63 | the modal closes, the step returns to 1 and success is cleared; the form is kept |

## Left out

- The remote model call is not modelled: client construction, prompt text, response schema and network
  (`geminiService.ts:36-81`). It is an input `CallOutcome`, and `JSON.parse` is a parameter. The parsed value is a
  type parameter, because the source casts it without checking.
- The display strings are not modelled: `toLocaleString`, "PKR …", "… km", "… Hours". The quote keeps the numbers the
  source formats.
- The toll figure (`geminiService.ts:14`) is computed by the source but never returned, so it is not modelled.
- Numbers are exact reals, not IEEE doubles. Results can differ from the source only where a double's rounding error
  crosses a rounding boundary or a weight threshold: 1.5, 3.5, 7, 8 or 25 tons. For example, the weight text
  "7.0000000000000001" is the double 7 in JavaScript, so the source charges 145 per km. The model reads it as slightly
  more than 7 and charges 290.
- The `console.error` logging in the catch branch (`geminiService.ts:87`) is not modelled; it has no effect on the
  result.
- JsBuiltins.ParseFloat is not modelled for exponents, "Infinity" or hexadecimal-looking text. Only decimal numerals
  with an optional sign and fraction are read.
- JsBuiltins.LowerCase models the ASCII letters and U+0130 only. Other Unicode case mappings, and the UTF-16 code-unit
  length of characters outside the Basic Multilingual Plane, are not modelled.
- Timers and scheduling are not modelled: the 800 ms interval, the 1500 ms submit delay, and React's batching of state
  updates. Each interval tick and the submit timer's callback is a method the environment may call at any time.
- Calculator.CalculatorWidget.HandleEstimate runs the request and its settlement without interleaving. Edits made while
  the quote is pending are covered by calling BeginEstimate, the Edit methods and CompleteEstimate in sequence.
- The catch branch of `handleEstimate` (`Calculator.tsx:74-75`) is not modelled: `getSmartQuote` catches every error
  itself, so that branch never runs.
- `saveSubmission` and local storage (`ForBusiness.tsx:51`) are not part of this model. The hand-off is recorded as an
  append to `saved`.
- ForBusiness.BusinessWizard.ToggleRequirement requires the requirement to be one of the six chips. The chips at
  `ForBusiness.tsx:243-247` are the handler's only caller, and the invariant that the list holds chips only rests on
  this.
- ForBusiness.BusinessWizard.Submit models the handler, which checks only the agreement. The submit button is also
  disabled while submitting (`ForBusiness.tsx:295`); the model does not prevent a second submission.
- ForBusiness.ApplyInput requires that the checkbox is the input named `agreed`, as in the rendered form. An event that
  pairs a checkbox with a text field, or text with `agreed`, would store a value of the other type in JavaScript and
  is not modelled.
- Rendering is not modelled: JSX, animation, icons, navigation callbacks, the industry list and the visibility of the
  suggestion drop-downs. The other pages (drivers wizard, hero, footer, app shell) are not part of this model.
