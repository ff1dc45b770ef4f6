# Prestige Fly: locale routing, bilingual resolution and form flows in Dafny

Prestige Fly is a bilingual (English/French) marketing site. The pages in
the French tree live under a `/fr` prefix and mirror the English pages.
Nearly all of the site is presentational. This project models the three
pieces of it that carry logic:

- **The locale router** (`src/lib/i18n.ts`) and the navigation bar's pure helpers (`src/components/Navigation.tsx`).
  - Detecting the locale of a path.
  - Adding and stripping the `/fr` prefix.
  - Deciding which navigation entry is active.
  - Building the navigation and language-switcher links.
- **The bilingual value resolvers** (`src/lib/data.ts` and the destinations page's copy).
  - They pick the variant for the locale and fall back to English.
  - They follow JavaScript truthiness: an empty string falls back, an empty array does not.
- **The form drafts.**
  - The four-step booking controller, in an English and a French variant.
  - The flat contact forms, in an English and a French variant.
  - Each page locale-detects on mount.

Modules:

| module | file | models |
|---|---|---|
| `Js` | js.dfy | string truthiness, `startsWith`, property reads and `{...obj, [k]: v}` |
| `I18n` | i18n.dfy | `src/lib/i18n.ts` |
| `Content` | content.dfy | `src/lib/data.ts` |
| `Navigation` | navigation.dfy | the pure part of `src/components/Navigation.tsx` |
| `PageLocale` | page_locale.dfy | the `startsWith("/fr")` mount effect the English-tree pages share |
| `Booking` | booking.dfy | the step controller both booking pages share (class `BookingFlow`) |
| `EnglishBooking`, `FrenchBooking` | booking_en.dfy, booking_fr.dfy | each booking page's fields, gate, service selection and review |
| `Contact` | contact.dfy | the contact form both contact pages share (class `ContactFlow`) |
| `EnglishContact`, `FrenchContact` | contact_en.dfy, contact_fr.dfy | each contact page's fields and completion |
| `Destinations` | destinations.dfy | the destinations page's array resolver and locale state |

Modelling choices:

- **Strings.** A string is `seq<char>`. A JavaScript `startsWith` is Dafny's sequence-prefix relation.
- **Missing keys.** A missing key of a field bag reads as `undefined`. That value is falsy and renders as nothing, so the model reads it as `""`.
- **Bilingual values.**
  - Text fields are plain strings, and an untranslated text is `""`.
  - Array and object variants are `Option`s, because a present empty array is still truthy.
- **Timers.** The `setTimeout` of each submit handler is split in two.
  - `HandleSubmit` records one pending completion.
  - `CompleteSubmission` is that callback firing.
- **Handlers and buttons.** Handlers are modelled as written, with no guards. The buttons are modelled separately by `ClickNext`, `ClickPrevious` and `ClickSubmit`.
  - These act only when the button is rendered: the form view is shown, Previous only after step 1, Next before step 4, Submit on step 4. The contact form's `ClickSubmit` acts while its form view is shown.
  - Next also acts only when it is enabled.
- **Page variants.** The two booking pages share one class. Its parameters are the initial field bag and the names step 2 requires: full name, email and phone on the English page; name and email on the French page. The two contact pages likewise share one class, parametrised by whether completion clears the bag.

The code departs in places from what a reader of the site would expect (a segment-aware `/fr` test, a strip that undoes only what localisation added, a submit that fires once). The model follows the code:

- **Locale detection.** `getLocaleFromPath` tests for `"/fr/"`, so the bare path `"/fr"` is English (`I18n.BarePrefixIsEnglish`). The pages themselves test the looser `"/fr"`, so `"/france"` would read as French (`PageLocale.PagesAndRouterDisagree`).
- **Stripping.** The strip of `/fr` is not segment-aware: `"/france"` becomes `"ance"`. It is not idempotent either.
- **Round trip.** The add/strip round trip holds for every path in French. It holds in English exactly for paths that do not start with `"/fr"` (`I18n.RemoveAfterEnglish`).
- **French links.** A French link is detected as French exactly when its logical path starts with `"/"` (`I18n.FrenchLinkDetected`).
- **French home route.** The bare route `"/fr"` is the French localisation of `""`, not of `"/"`. Its logical path is `""`, so no navigation entry is active there and the switcher's English link is the empty href (`Navigation.FrenchHomeRoute`). The French home link the bar itself builds is `"/fr/"`, the localisation of `"/"`.
- **Submission.** Submission has no failure path and no guard against resubmission. A second submit only schedules a second completion, which sets the same flag again.

## Model

| member | source | states |
|---|---|---|
| `Js.Spread` | src/app/book-appointment/page.tsx:46 | the spread update adds the key, sets it to the value and leaves every other key's value unchanged |
| `I18n.LocaleFromPath` | src/lib/i18n.ts:4-7 | French exactly when the path is `"/fr/"` followed by something; otherwise English |
| `I18n.LocalizedPath` | src/lib/i18n.ts:9-14 | English leaves the path unchanged; French yields a path three longer that starts with `/fr` and continues with the input |
| `I18n.RemoveLocaleFromPath` | src/lib/i18n.ts:16-18 | never longer; identity on paths not starting with `/fr`; otherwise the input is `/fr` followed by the result |
| `I18n.RemoveAfterFrench` | src/lib/i18n.ts:9-18 | removing the locale from a French-localised path gives back the path, for every path |
| `I18n.RemoveAfterEnglish` | src/lib/i18n.ts:9-18 | removing after English localisation gives back the path if and only if it does not start with `/fr` |
| `I18n.FrenchLinkDetected` | src/lib/i18n.ts:4-14 | a French-localised path reads as French if and only if the logical path starts with `/` |
| `I18n.EnglishLinkDetected` | src/lib/i18n.ts:4-14 | an English-localised path reads as English if and only if it does not start with `/fr/` |
| `I18n.BarePrefixIsEnglish` | src/lib/i18n.ts:4-7 | `"/fr"` alone, which is also the French localisation of `""`, reads as English |
| `I18n.BarePrefixStripsToEmpty` | src/lib/i18n.ts:16-18 | stripping `"/fr"` yields the empty path, whose French localisation is `"/fr"` again |
| `I18n.NoDoublePrefixCheck` | src/lib/i18n.ts:10-11 | localising an already French path prefixes it a second time |
| `I18n.RemoveIsNotSegmentAware` | src/lib/i18n.ts:17 | `"/france"` becomes `"ance"` |
| `I18n.RemoveIsNotIdempotent` | src/lib/i18n.ts:17 | `"/fr/fr/x"` becomes `"/fr/x"`, and only a second strip gives `"/x"` |
| `Content.LocalizedText` | src/lib/data.ts:8-14 | undefined gives `""`; a non-empty locale variant is returned; an empty one falls back to English; the result is always the variant, the English text or `""` |
| `Content.LocalizedArray` | src/lib/data.ts:16-22 | undefined gives `[]`; a present locale array is returned even when empty; only an absent one falls back to English, then to `[]` |
| `Content.LocalizedObject` | src/lib/data.ts:24-30 | undefined gives the empty object; a present variant is returned; an absent one falls back to the English value, or to undefined |
| `Content.EnglishTextIsEnglish` | src/lib/data.ts:13 | in English the resolver returns the English text |
| `Content.FrenchTextFallsBack` | src/lib/data.ts:13 | in French it returns the French text when non-empty and the English text otherwise |
| `Content.EmptyStringAndEmptyArrayDiffer` | src/lib/data.ts:8-22 | an empty French string falls back to English while an empty French array is returned as is |
| `Content.ArrayAgreesWithObject` | src/lib/data.ts:16-30 | when a list has some variant to give, the object resolver finds exactly what the array resolver returns |
| `Navigation.CurrentPath` | src/components/Navigation.tsx:229-231 | the component's own strip leaves paths without `/fr` alone and otherwise drops exactly the leading `/fr` |
| `Navigation.IsActive` | src/components/Navigation.tsx:41-43 | active on its own path; the root entry only on `"/"`; other entries on every path they prefix |
| `Navigation.ActiveIsLocaleIndependent` | src/components/Navigation.tsx:22-43 | for pathnames `p` and `"/fr" + p`, with `p` logical (not starting with `/fr`), each entry is active on one exactly when it is active on the other |
| `Navigation.AtMostOneActive` | src/components/Navigation.tsx:33-43 | on any path, no two of the five entries are active together |
| `Navigation.HrefIsLogical` | src/components/Navigation.tsx:33-39 | every entry's href starts with `/` and not with `/fr` |
| `Navigation.LocalizedHrefs` | src/components/Navigation.tsx:73-76 | one link per entry, each the entry's href localised for the page's locale |
| `Navigation.NavLinks` | src/components/Navigation.tsx:170-173 | five links, the k-th being the k-th entry's href localised for the page's locale |
| `Navigation.NavLinksKeepLocale` | src/components/Navigation.tsx:170-173 | every navigation link reads back, through the router, as the locale it was built for |
| `Navigation.EnglishSwitchHref` | src/components/Navigation.tsx:118-120 | the English switcher link is the pathname without its `/fr`, and the pathname itself elsewhere |
| `Navigation.FrenchSwitchHref` | src/components/Navigation.tsx:125-127 | the French switcher link is the pathname itself on a `/fr` page and `/fr` + pathname elsewhere |
| `Navigation.SwitcherKeepsLogicalPage` | src/components/Navigation.tsx:186-198 | for pathnames `p` and `"/fr" + p`, with `p` logical, the English switcher link is `p` and the French one `"/fr" + p` |
| `Navigation.FrenchHomeRoute` | src/components/Navigation.tsx:22-43 | on the route `"/fr"` the logical path is `""`, no entry is active, the English switcher link is `""` and the French one `"/fr"` |
| `PageLocale.AfterMount` | src/app/destinations/page.tsx:17-22 | French when the pathname starts with `/fr`; otherwise the locale is unchanged |
| `PageLocale.RouterFrenchIsPageFrench` | src/app/contact/page.tsx:24-29 | every path the router calls French a page calls French too |
| `PageLocale.PagesAndRouterDisagree` | src/app/book-appointment/page.tsx:38-43 | `"/fr"` and `"/france"` are French to a page and English to the router |
| `PageLocale.MountRecoversLinkLocale` | src/app/destinations/page.tsx:14-22 | a page mounted at a link built from a logical path for a locale ends in that locale |
| `Booking.AfterNext` | src/app/book-appointment/page.tsx:49-53 | keeps the step in 1..4; advances below 4; a no-op at 4 |
| `Booking.AfterPrevious` | src/app/book-appointment/page.tsx:55-59 | keeps the step in 1..4; goes back above 1; a no-op at 1 |
| `Booking.NextThenPrevious` | src/app/book-appointment/page.tsx:49-59 | from any step below 4, Next then Previous returns to it |
| `Booking.PreviousThenNext` | src/app/fr/book-appointment/page.tsx:43-53 | from any step above 1, Previous then Next returns to it |
| `Booking.AllFilled` | src/app/book-appointment/page.tsx:590-592 | true exactly when every named field is non-empty |
| `Booking.NextEnabled` | src/app/book-appointment/page.tsx:587-593 | true exactly when a service is chosen and, on step 2, every required field is non-empty |
| `Booking.ReachedSteps` | src/app/book-appointment/page.tsx:180-181 | the steps drawn reached are exactly the step numbers 1..4 up to the current step |
| `Booking.CompletedSteps` | src/app/book-appointment/page.tsx:185 | the steps drawn completed are exactly the step numbers 1..4 below the current step |
| `Booking.ProgressCounts` | src/app/book-appointment/page.tsx:178-207 | on step k the first k steps are drawn reached and the first k - 1 completed; the current step is reached, not completed |
| `Booking.BookingFlow.constructor` | src/app/book-appointment/page.tsx:21-34 | step 1, the given locale and initial draft, not submitted, nothing pending |
| `Booking.BookingFlow.HandleInputChange` | src/app/book-appointment/page.tsx:45-47 | the bag becomes the spread update of that one field |
| `Booking.BookingFlow.NextStep` | src/app/book-appointment/page.tsx:49-53 | the step becomes its successor; the 1..4 invariant is kept |
| `Booking.BookingFlow.PrevStep` | src/app/book-appointment/page.tsx:55-59 | the step becomes its predecessor; the 1..4 invariant is kept |
| `Booking.BookingFlow.HandleSubmit` | src/app/book-appointment/page.tsx:61-67 | schedules one completion and changes nothing else |
| `Booking.BookingFlow.CompleteSubmission` | src/app/book-appointment/page.tsx:64-66 | a pending completion fires and the draft becomes submitted, which switches the page to the confirmation view |
| `Booking.BookingFlow.CanAdvance` | src/app/book-appointment/page.tsx:587-593 | when Next is enabled a service is chosen and, on step 2, every required field is non-empty |
| `Booking.BookingFlow.ShowsConfirmation` | src/app/book-appointment/page.tsx:116-117 | once submitted, the confirmation view replaces the form, so none of Previous, Next and Submit is shown |
| `Booking.BookingFlow.PreviousOffered` | src/app/book-appointment/page.tsx:569-573 | Previous is shown only where it moves the step back by one |
| `Booking.BookingFlow.NextOffered` | src/app/book-appointment/page.tsx:583-586 | Next is shown only where it moves the step forward by one |
| `Booking.BookingFlow.SubmitOffered` | src/app/book-appointment/page.tsx:583-600 | on a valid step of the form view, Submit is shown exactly when Next is not |
| `Booking.BookingFlow.ClickNext` | src/app/book-appointment/page.tsx:583-593 | advances by one exactly when the form view shows Next (step below 4) and it is enabled; otherwise nothing changes |
| `Booking.BookingFlow.ClickPrevious` | src/app/book-appointment/page.tsx:569-573 | goes back by one exactly when the form view shows Previous (step above 1) |
| `Booking.BookingFlow.ClickSubmit` | src/app/book-appointment/page.tsx:583-610 | schedules a completion exactly when the form view shows Submit (step 4) |
| `EnglishBooking.NewPage` | src/app/book-appointment/page.tsx:20-34 | English, step 1, the nine-field initial draft, name/email/phone required on step 2 |
| `EnglishBooking.MountEffect` | src/app/book-appointment/page.tsx:38-43 | the locale becomes French when the pathname starts with `/fr` |
| `EnglishBooking.SelectService` | src/app/book-appointment/page.tsx:233-243 | stores the option's label resolved in the page's locale as the service |
| `EnglishBooking.InitialDraft` | src/app/book-appointment/page.tsx:23-33 | every field starts empty except `preferredLanguage = "en"` and `consultationType = "video"` |
| `EnglishBooking.NextGate` | src/app/book-appointment/page.tsx:587-593 | Next is enabled exactly when a service is chosen and, on step 2, full name, email and phone are all filled |
| `EnglishBooking.GatingWalkthrough` | src/app/book-appointment/page.tsx:583-593 | Next is disabled at the start, enabled once a service is chosen, and on step 2 disabled until the phone is given too |
| `FrenchBooking.NewPage` | src/app/fr/book-appointment/page.tsx:20-32 | French, step 1, the seven-field draft all empty, name and email required on step 2 |
| `FrenchBooking.MountEffect` | src/app/fr/book-appointment/page.tsx:35-37 | the locale becomes French whatever the path |
| `FrenchBooking.SelectService` | src/app/fr/book-appointment/page.tsx:258-263 | stores the chosen service's code, not a label |
| `FrenchBooking.FindService` | src/app/fr/book-appointment/page.tsx:486 | the first option with the code, or none exactly when no option has it |
| `FrenchBooking.ReviewServiceLabel` | src/app/fr/book-appointment/page.tsx:485-488 | the label in the locale of a service with the stored code; nothing exactly when no code matches |
| `FrenchBooking.CodesDistinct` | src/app/fr/book-appointment/page.tsx:62-80 | the five service codes are pairwise different |
| `FrenchBooking.SelectedServiceReviewed` | src/app/fr/book-appointment/page.tsx:258-265 | after choosing the k-th service, the review shows that service's label |
| `FrenchBooking.UnknownCodeShowsNothing` | src/app/fr/book-appointment/page.tsx:487-488 | a stored value that is a label rather than a code shows no service on review |
| `FrenchBooking.NextGate` | src/app/fr/book-appointment/page.tsx:570-573 | Next is enabled exactly when a service is chosen and, on step 2, name and email are filled |
| `FrenchBooking.InitialDraft` | src/app/fr/book-appointment/page.tsx:23-31 | every field starts empty |
| `FrenchBooking.PhoneRequiredOnlyInEnglish` | src/app/fr/book-appointment/page.tsx:570-573 | a step-2 draft without a phone may advance on the French page and not on the English one |
| `Contact.ContactFlow.constructor` | src/app/contact/page.tsx:13-20 | the given locale, the blank bag, not submitted, nothing pending |
| `Contact.ContactFlow.HandleInputChange` | src/app/contact/page.tsx:31-33 | the bag becomes the spread update of that one field |
| `Contact.ContactFlow.HandleSubmit` | src/app/contact/page.tsx:35-48 | schedules one completion and changes nothing else |
| `Contact.ContactFlow.CompleteSubmission` | src/app/contact/page.tsx:38-47 | a pending completion fires and the draft is submitted; the bag is reset to blank on the English page and kept on the French one |
| `Contact.ContactFlow.ShowsConfirmation` | src/app/contact/page.tsx:66-67 | the confirmation view is shown exactly when the submit button is not |
| `Contact.ContactFlow.ClickSubmit` | src/app/contact/page.tsx:328-329 | schedules a completion exactly when the form view, and with it the submit button, is shown |
| `EnglishContact.NewPage` | src/app/contact/page.tsx:12-20 | English, the five-field blank bag, clearing on completion |
| `EnglishContact.MountEffect` | src/app/contact/page.tsx:24-29 | the locale becomes French when the pathname starts with `/fr` |
| `EnglishContact.BlankDraft` | src/app/contact/page.tsx:40-46 | every field of the blank bag is empty |
| `EnglishContact.SubmitScenario` | src/app/contact/page.tsx:35-48 | fill, submit and complete: the confirmation view shows and every field is empty again |
| `FrenchContact.NewPage` | src/app/fr/contact/page.tsx:13-21 | French, the five-field blank bag, not clearing on completion |
| `FrenchContact.MountEffect` | src/app/fr/contact/page.tsx:24-26 | the locale becomes French whatever the path |
| `FrenchContact.BlankDraft` | src/app/fr/contact/page.tsx:14-20 | every field starts empty |
| `FrenchContact.SubmitScenario` | src/app/fr/contact/page.tsx:32-38 | fill, submit and complete: the confirmation view shows and the entered values remain |
| `Destinations.LocalizedArray` | src/app/destinations/page.tsx:325-331 | the page's copy equals the library's array resolver: `[]` for undefined, a present locale array as is, else English, else `[]` |
| `Destinations.DestinationsPage.constructor` | src/app/destinations/page.tsx:14 | the locale starts as English |
| `Destinations.DestinationsPage.MountEffect` | src/app/destinations/page.tsx:17-22 | the locale becomes French when the pathname starts with `/fr`, and is kept otherwise |

## Left out

- Rendering is not modelled: JSX markup, styling classes, framer-motion animation, step titles and labels, and the review's other read-only fields.
- The globe renderer, the hero video with its fallback timer, and the services section's scroll observer are not modelled. They are rendering, DOM I/O and browser timing.
- The 1000 ms delay is not modelled. Only the order "submit, then completion" is kept.
- Navigating away while a completion is pending is not modelled. It abandons the timer.
- HTML field validation (`required`, `type="email"`) is not modelled. Neither is the date input's `min`, which is computed from the clock. Both are browser behaviour.
- Implicit form submission by the browser (Enter in a field) is not modelled. The model submits only through the submit button or a direct `HandleSubmit` call.
- The `/fr/:path*` rewrite in `next.config.js` is not modelled. Its meaning is defined by Next.js, which is not part of this model.
- The content document `info.json` is not part of this model. Page data and service options are inputs.
- Content.LocalizedObject: `T` is taken to be an object or array type, truthy whenever present. For a primitive `T`, the source would also fall back on a falsy variant (`""`, `0`, `false`), and the model does not capture that.
- `GetPageData` models `getPageData` as a total match over the six page names. It has no contract beyond its type: the closed key set is the only property.
- The website-info, brand, design, features and SEO accessors of `src/lib/data.ts` are not modelled. They are field reads with no logic.
- The navigation bar's `isOpen`, `isScrolled` and dropdown toggles are not modelled. They are UI state driven by scroll and click events.
- The logo and call-to-action links are not modelled separately. They are `LocalizedPath` applied to the constants `/` and `/book-appointment`.
- The English booking page's consultation-type buttons, time select and free-text inputs are not modelled separately. Each of them calls `HandleInputChange` with its own field name.
- The other pages (home, the French home and services pages, resources, the French destinations page) are not modelled. They only feed constant content to the resolvers.
- React's render scheduling is not modelled. Each handler runs to completion before the next event, so a state update is seen by the next handler.
