# Kontrak Agenda — a verified model of the dashboard's state machine

Kontrak Agenda is a single-page React dashboard. A user logs in with five form
fields. The dashboard then shows an account card, which offers an "Isi Formulir
Agenda" (fill in the agenda form) button while the agenda is `-`, and a
five-step contract card. The contract form takes an agenda, a price and a
benefit:
- the price input is re-formatted on every keystroke as `Rp` plus a number grouped in threes;
- saving normalises the price and the benefit;
- a price of 2.560.000 or more switches the description of step "3".

This project models that behaviour in Dafny and proves what the code promises.

Modules, one per source concern:

- `Types` (`types.dfy`) holds the records of `types.ts` and the two form records of `App.tsx` (`LoginForm`, App.tsx:18, and `ContractFormData`, App.tsx:153). Optional TypeScript properties (`agendaNumber?`, `dob?`, …) are `Option<string>`.
- `PriceFormat` (`price_format.dfy`) holds the pure helpers behind the contract form in `App.tsx`:
  - digit stripping;
  - parsing a digit string to a natural;
  - `id-ID` grouping;
  - the keystroke formatter;
  - the two save-time normalisations;
  - the threshold rule.
- `DashboardCards` (`dashboard_cards.dfy`) holds what `components/DashboardCards.tsx` derives from the state:
  - the account card's view and its form-button gate;
  - the agenda fallback;
  - the contract card's rows;
  - the confirmation link with its `encodeURIComponent` encoding.
- `AppState` (`app_state.dfy`) holds:
  - the initial data;
  - `getHeaderTitle`;
  - the login and contract reducers;
  - the `ContractFormModal` class (the modal's local form state);
  - the `App` class, whose fields are the component's state and whose methods are its handlers. Each handler states its whole new `State()` in terms of the old one and keeps `Valid()`.

`App.Valid()` holds after every handler. It says:
- the five steps keep their keys, labels and statuses;
- `expiryMinutes` stays 60 and there is never a profile image;
- before login the account and the steps are the initial ones;
- overlays open only after login;
- once the gate is closed, the price starts with `Rp` and the benefit contains `%`.

`ContractFormModal.Valid()` says that the form's price is a fixed point of the keystroke formatter. Therefore every price the form forwards starts with `"Rp "` and survives save-time normalisation unchanged.

Two consequences of the code are worth knowing:
- The sentinel `-` is not reserved. Any non-empty agenda is stored verbatim, so a contract saved with the agenda `-` leaves the fill-agenda button shown. `App.HandleCreateContract` states this: after saving, the button is shown iff the agenda typed was `"-"`.
- The saved benefit is only guaranteed to contain `%`, not to end with it. `%` is appended only when none is present (App.tsx:429), so `20% p.a.` is stored as is.

## Model

| member | source | states |
|---|---|---|
| `PriceFormat.StripNonDigits` | App.tsx:168-169 | the result holds only digits and is no longer than the input; an all-digit input is kept whole and an input without digits gives "" (with `StripAppend`, this fixes the result as the input's digits in order) |
| `PriceFormat.StripAppend` | App.tsx:169 | stripping distributes over concatenation |
| `PriceFormat.NumericPrice` | App.tsx:416 | a price with no digits reads as 0, the fallback applied when `parseInt` finds no number |
| `PriceFormat.NatToDigits` | App.tsx:177 | the canonical decimal spelling of a number: non-empty, digits only, no leading zero, and it parses back to the number |
| `PriceFormat.GroupThousandsShape` | App.tsx:176-177 | grouping puts a '.' exactly at every fourth position from the right, and removing the separators gives back the digits |
| `PriceFormat.FormatPriceInputSpec` | App.tsx:167-181 | the formatted price is "" iff the input has no digits; otherwise it is "Rp " then the number without leading zeros, grouped in threes; and the number read back from it is the number read from the input |
| `PriceFormat.FormatPriceInputIdempotent` | App.tsx:167-181 | formatting an already formatted price changes nothing |
| `PriceFormat.PriceKeystrokeExample` | App.tsx:167-181 | typing 100000 shows "Rp 100.000", which is below the threshold |
| `PriceFormat.NormalizePrice` | App.tsx:427 | the saved price starts with "Rp"; a price that already did is kept verbatim, any other gets "Rp " in front |
| `PriceFormat.NormalizePriceKeepsValue` | App.tsx:416-427 | normalising keeps the number the threshold rule reads, and is idempotent |
| `PriceFormat.NormalizeBenefit` | App.tsx:429 | the saved benefit contains '%'; one that already did is kept verbatim, any other gets '%' appended |
| `PriceFormat.AgendaDescription` | App.tsx:419-421 | the alternate text iff the price is at least 2560000, the default text iff it is below |
| `PriceFormat.ThresholdBoundary` | App.tsx:416-421 | 2559999 gives the default text, 2560000 the alternate text |
| `DashboardCards.IsFormEmpty` | components/DashboardCards.tsx:31 | while the gate is open the agenda line reads "-"; an absent or empty agenda also reads "-" but leaves the gate closed, since the comparison is strict (the button-iff-"-" clause itself is on `RenderAccountCard`) |
| `DashboardCards.AgendaDisplay` | components/DashboardCards.tsx:50 | an absent or empty agenda shows "-", any other agenda shows verbatim; the line is never blank |
| `DashboardCards.RenderAccountCard` | components/DashboardCards.tsx:30-73 | the fill-agenda button is shown iff agendaNumber is "-"; the agenda line uses the fallback; name, price, benefit and expiry are shown as stored |
| `DashboardCards.StatusText` | components/DashboardCards.tsx:157 | each status is shown by its own name: "Done" iff Done, "Pending" iff Pending, "Failed" iff Failed |
| `DashboardCards.StatusTextInjective` | components/DashboardCards.tsx:157 | distinct statuses are shown differently |
| `DashboardCards.RenderContractStatusCard` | components/DashboardCards.tsx:142-161 | exactly one row per step, in list order, each with that step's key, label, description and status |
| `DashboardCards.EncodeUriComponent` | components/DashboardCards.tsx:133 | the encoded text holds only unreserved characters and '%' |
| `DashboardCards.DecodeEncode` | components/DashboardCards.tsx:133 | decoding the encoding of an ASCII text gives back the text |
| `DashboardCards.ConfirmationUrlFor` | components/DashboardCards.tsx:131-133 | the link is the fixed wa.me prefix with the advisor number, then only unreserved characters and '%' |
| `DashboardCards.ConfirmationUrlCarries` | components/DashboardCards.tsx:131-133 | the text after the prefix decodes back to the message |
| `DashboardCards.ConfirmationUrl` | components/DashboardCards.tsx:130-134 | the confirmation link starts with the fixed prefix, and no step or account field enters it |
| `DashboardCards.ConfirmationMessageIsAscii` | components/DashboardCards.tsx:132 | the fixed confirmation message uses ASCII characters only |
| `DashboardCards.ConfirmationUrlDeliversMessage` | components/DashboardCards.tsx:131-133 | the text after the prefix of the confirmation link decodes to exactly the fixed message |
| `AppState.HeaderTitle` | App.tsx:444-450 | 'statistics' maps to 'STATISTIK PERFORMA' and 'regulations' to 'KETENTUAN SISTEM'; every other tab maps to 'KONTRAK AGENDA', in both directions |
| `AppState.ApplyLogin` | App.tsx:402-410 | name, phone, dob and city come from the form; price, benefit, agenda, expiry and image are kept; the gate is unchanged |
| `AppState.LoginIgnoresPassword` | App.tsx:402-410 | the account after login does not depend on the password |
| `AppState.ApplyContract` | App.tsx:424-430 | the agenda is stored verbatim; the price starts with "Rp" and the benefit contains '%'; the stored price carries the submitted number; every other field is kept; the gate is closed iff the agenda is not "-" |
| `AppState.UpdateAgendaStep` | App.tsx:433-438 | length, order, keys, labels and statuses are kept; only steps keyed "3" get the new description |
| `AppState.StepsAfterContract` | App.tsx:416-438 | step "3" gets the threshold rule's text for the price's number: the alternate text iff the number is at least 2560000, the default text iff it is below; every other step is unchanged |
| `AppState.ContractResubmissionOverwrites` | App.tsx:414-441 | a second contract overwrites the first entirely, in the account and in the steps |
| `AppState.ContractNormalisationIdempotent` | App.tsx:424-430 | the stored price and benefit are fixed points of normalisation; re-saving them stores the same account |
| `AppState.ExampleContractAccount` | App.tsx:424-430 | agenda 2 with "Rp 100.000" and "20" stores agenda "2", price "Rp 100.000" and benefit "20%" |
| `AppState.ExampleContractSteps` | App.tsx:416-438 | that contract leaves step "3" with the default text |
| `AppState.ContractFormModal.constructor` | App.tsx:158 | the form mounts empty, with a well-formed price |
| `AppState.ContractFormModal.SetAgenda` | App.tsx:210 | only the agenda changes |
| `AppState.ContractFormModal.SetBenefit` | App.tsx:242 | only the benefit changes |
| `AppState.ContractFormModal.HandlePriceChange` | App.tsx:167-181 | only the price changes, to the formatted input, which stays a fixed point of the formatter |
| `AppState.ContractFormModal.HandleSubmit` | App.tsx:160-165 | the form is forwarded iff agenda, price and benefit are all non-empty; a forwarded price starts with "Rp " |
| `AppState.App.constructor` | App.tsx:341-400 | logged out on the dashboard tab with no overlay; an empty login form; the account with "-" sentinels and expiry 60; five steps "1".."5", all Done; the fill-agenda button shown |
| `AppState.App.EditLoginField` | App.tsx:59-127 | only the edited login field changes |
| `AppState.App.HandleLogin` | App.tsx:402-412 | the account becomes ApplyLogin of the form, isLoggedIn becomes true, and nothing else changes |
| `AppState.App.SubmitLogin` | App.tsx:23-28 | logs in iff all five fields are non-empty; otherwise no state changes |
| `AppState.IncompleteLoginScenario` | App.tsx:23-28 | submitting with the password and city still empty leaves the user logged out, with the initial account and the typed fields kept |
| `AppState.LoginScenario` | App.tsx:23-28 | once all five fields are filled the user is logged in on the dashboard as Budi of Jakarta, and the gate is open |
| `AppState.App.OpenContractModal` | App.tsx:577-580 | callable only while the account card shows the fill-agenda button; it only opens the contract modal |
| `AppState.App.CloseContractModal` | App.tsx:477 | only closes the contract modal; account and steps are unchanged |
| `AppState.App.OpenProfileModal` | App.tsx:553 | only opens the profile modal |
| `AppState.App.CloseProfileModal` | App.tsx:483 | only closes the profile modal |
| `AppState.App.OpenSidebar` | App.tsx:500 | only sets the sidebar flag |
| `AppState.App.HandleCreateContract` | App.tsx:414-441 | the account and steps become ApplyContract and StepsAfterContract, the modal closes, and nothing else changes; the fill-agenda button is then shown iff the agenda was "-"; the contract card's third row shows the threshold text |
| `AppState.App.SubmitContractForm` | App.tsx:160-165 | nothing changes unless all three fields are filled; otherwise the contract is created and the formatted price is stored as the form showed it |
| `AppState.ContractScenario` | App.tsx:414-441 | opening the form, typing agenda 2, price 100000 and benefit 20 and saving stores "2", "Rp 100.000" and "20%", leaves step "3" with the default text, closes the modal and hides the fill-agenda button |

## Left out

- JSX markup, styling, icons and images are not modelled. Neither are the static cards `RulesCard` and `AttentionCard`, which are presentation with no behaviour.
- App.tsx imports `StatisticsCard` and `RegulationsView` (App.tsx:9-10), but components/DashboardCards.tsx defines neither. They render only on the 'statistics' and 'regulations' tabs (App.tsx:596-606), which no handler can select.
- `components/Sidebar.tsx` takes no props. The `activeTab`, `onTabChange`, `isOpen` and `onClose` that App passes to it are therefore never used:
  - no tab change is reachable, so `activeTab` only feeds `HeaderTitle`;
  - the sidebar's close callback (App.tsx:490) is unreachable and has no method.
- `UserProfileModal` (App.tsx:268-335) and the header's name display with its `'ASDSA'` fallback (App.tsx:557) are read-only rendering and are not modelled.
- `Intl.NumberFormat('id-ID')` and `Number(...)` work on IEEE doubles. Above 2^53 they round, and the source would then show different digits than the model. While the value stays finite the threshold decision is unaffected, because rounding is monotone and 2560000 is exact.
- `FormatPriceInput` and `FormatPriceInputSpec`: a value at or above about 1.8e308, whatever the length of the digit string, makes `Number(rawValue)` Infinity (App.tsx:177). The source then stores "Rp ∞", which strips to "" and reads back as 0 at App.tsx:416, so saving it picks the default text. The model keeps the unbounded number: it stores the grouped digits and picks the alternate text.
- `parseInt` has the same 2^53 limit. The model reads the digit string as an unbounded natural.
- `window.open` is a browser call, so the model stops at the URL it would open.
- `EncodeUriComponent` covers every Dafny `char`. Lone surrogates cannot occur, so the source's URIError on them is not modelled.
- `DecodeEncode`: decoding is defined for ASCII escapes only, so the round trip is stated for ASCII text. The confirmation message is ASCII (`ConfirmationMessageIsAscii`). In the model it is written as a concatenation of word groups, which spells the same text.
- React mechanics are not modelled: state batching, event objects, `preventDefault` and unmounting. Each handler is one atomic transition.
- Native `required` validation is left out, including the browser's date-format check on the `dob` input. The code's own guards express the same non-empty requirement.
- The modal's lifetime is not tied to `App`. A fresh `ContractFormModal` models the form state that each mount creates and each close discards.
