# Aidra site: the behaviour of its interactive components

The site is a React single-page application for a sustainability-tech company. Almost all of it is fixed markup. Four components hold state that event handlers change, and this project models exactly that state and those handlers:

- **CTA** (`src/components/CTA.tsx`): the "Join Now" modal form. It keeps a three-field draft (name, email, company), a `showModal` flag and an `isSubmitting` flag. Every keystroke cuts the field to 100 characters. Submitting tests the email against `^[^\s@]+@[^\s@]+\.[^\s@]+$`. When the test passes, the handler waits one second, then closes the modal and clears the draft. When it fails, nothing but the flag moves.
- **Careers** (`src/components/Careers.tsx`): the job application form. A résumé is accepted only if its MIME type is exactly `application/pdf` (checked first) and its size is at most 5 MiB. The accepted file's name is shown under the upload area. Submitting switches the page to a thank-you panel for good.
- **Navigation** (`src/components/Navigation.tsx`): the top bar. `isScrolled` tracks `scrollY > 20`, and a button flips the mobile menu. Items whose path starts with `/#` are in-page anchors that query the document for `#id`. The remaining item is a router link, marked current on its own page.
- **LanguageSelector** (`src/components/LanguageSelector.tsx`): the language dropdown. A trigger opens and closes it, picking a language sets it and closes the dropdown, and a press outside closes it. The shown abbreviation comes from a two-entry table.

Each component is a Dafny class whose fields are the component's state and whose methods are its handlers. Pure parts (the regular expression, the résumé gate, prefix tests, table lookups, accessible names) are functions with lemmas. The email pattern is stated as the set of strings that split into a non-empty local part, `@`, a non-empty host, `.` and a non-empty final label (`EmailRegex.Matches`). A single left-to-right scan, `EmailRegex.Test`, is proved to decide exactly that set.

Files: `wrappers.dfy` (Option), `email_regex.dfy`, `cta.dfy`, `careers.dfy`, `navigation.dfy`, `language_selector.dfy`.

A rejected résumé does not clear the stored name: `handleFileChange` only empties the file input (`src/components/Careers.tsx:42`, `:47`), so `Careers.RejectionKeepsName` shows the stale name in the hint.

## Model

| member | source | states |
|---|---|---|
| `EmailRegex.MatchesIff` | src/components/CTA.tsx:31 | The regex's language is exactly the strings with no JavaScript whitespace, exactly one `@` that is not first, and a `.` with at least one character between it and the `@` and at least one after it |
| `EmailRegex.SplitCharacters` | src/components/CTA.tsx:31 | In a matching string every character is a non-space, and the split's `@` is the only `@` |
| `EmailRegex.SplitFromCharacters` | src/components/CTA.tsx:31 | Conversely, a whitespace-free string with a single `@` at a non-zero position and a suitable `.` splits there |
| `EmailRegex.Test` | src/components/CTA.tsx:31-32 | `emailRegex.test(email)` as one linear scan, true exactly when the email is in the regex's language |
| `EmailRegex.PlaceholderMatches` | src/components/CTA.tsx:31 | `john@company.com` matches |
| `EmailRegex.NoDotRefused` | src/components/CTA.tsx:31 | `john@company` does not match: a `.` after the `@` is required |
| `EmailRegex.MalformedRefused` | src/components/CTA.tsx:31 | A second `@`, whitespace, an empty local part and an empty final label are each refused |
| `EmailRegex.DottedPartsMatch` | src/components/CTA.tsx:31 | Dots may also appear inside the local part, the host and the final label (`a@b.c.d`, `a.b@c..d` match) |
| `CTA.Truncated` | src/components/CTA.tsx:51 | The stored value is the typed value's first min(100, length) characters |
| `CTA.Draft.With` | src/components/CTA.tsx:49-52 | The update sets the named field to the value and keeps both other fields |
| `CTA.SubmitButtonFor` | src/components/CTA.tsx:271-277 | The submit button is disabled, and reads "Submitting...", exactly while a submission is in flight; otherwise it reads "Submit Request" |
| `CTA.JoinForm.constructor` | src/components/CTA.tsx:13-19 | The modal starts closed, nothing is submitting, the draft is empty |
| `CTA.JoinForm.OpenModal` | src/components/CTA.tsx:174 | "Join Now" opens the modal and touches neither the draft nor the flag; the draft stays within its limit |
| `CTA.JoinForm.CloseModal` | src/components/CTA.tsx:200-201 | The close button closes the modal and keeps the draft, also while a submission is pending |
| `CTA.JoinForm.HandleInputChange` | src/components/CTA.tsx:47-53 | Fired only while the modal (and so the form) is shown. Only the named field changes, to the truncated value; every field stays within 100 characters; the flags are kept |
| `CTA.JoinForm.Submit` | src/components/CTA.tsx:26-45 | Started only from the open modal with no submission pending. The submission is pending iff the email matches; a failed test leaves the draft and modal unchanged and the flag lowered; a passing one leaves `isSubmitting` raised |
| `CTA.JoinForm.CompletePendingSubmit` | src/components/CTA.tsx:36-44 | After the delay the modal is closed, all three fields are empty and `isSubmitting` is false |
| `CTA.JoinForm.SubmitAndWait` | src/components/CTA.tsx:26-45 | The whole handler: `isSubmitting` ends false whatever the outcome; a valid email closes the modal and clears the draft; an invalid one changes neither |
| `Careers.Screen` | src/components/Careers.tsx:40-50 | Accepted iff the type is exactly `application/pdf` and size ≤ 5·1024·1024; any other type is a type rejection whatever the size |
| `Careers.AlertFor` | src/components/Careers.tsx:40-49 | No alert for an accepted file; the PDF message exactly for a type rejection, the size message exactly for a size rejection |
| `Careers.SizeBoundary` | src/components/Careers.tsx:45 | A PDF of exactly 5242880 bytes is accepted, one of 5242881 is not |
| `Careers.TypeCheckedFirst` | src/components/Careers.tsx:40-49 | A non-PDF oversize file gets the PDF message, not the size message |
| `Careers.HintText` | src/components/Careers.tsx:187 | The hint is the file name when that is non-empty, else "PDF up to 5MB"; it is never blank |
| `Careers.ApplicationForm.constructor` | src/components/Careers.tsx:12-14 | Not submitted, no file name, empty input |
| `Careers.ApplicationForm.HandleFileChange` | src/components/Careers.tsx:37-52 | No file: nothing changes. Accepted file: its name is stored and it stays in the input. Rejected file: the matching alert, the input emptied, the stored name unchanged. `isSubmitted` is kept, and a file left in the input is always an accepted one whose name is shown |
| `Careers.ApplicationForm.HandleSubmit` | src/components/Careers.tsx:54-69 | The handler as written: `isSubmitted` becomes true; if `e.currentTarget` is still the form, it is reset and the name cleared; if not, the error alert is raised and the name and input are kept |
| `Careers.ApplicationForm.HandleSubmitCapturingForm` | src/components/Careers.tsx:54-69 | The corrected handler: every submission ends with `isSubmitted` true, the name cleared and the input empty |
| `Careers.SubmitAfterDispatch` | src/components/Careers.tsx:61-67 | Under the event system's clearing of `currentTarget`, a successful submission reports an error and keeps the name |
| `Careers.SubmitCapturingFormAfterDispatch` | src/components/Careers.tsx:61-64 | The same session with the corrected handler ends submitted with the name cleared |
| `Careers.RejectionKeepsName` | src/components/Careers.tsx:37-52 | After an accepted and then a rejected file, the input is empty but the hint still names the accepted file |
| `Navigation.StartsWith` | src/components/Navigation.tsx:33 | `startsWith` holds exactly when the prefix fits and equals the string's first characters |
| `Navigation.AnchorSelector` | src/components/Navigation.tsx:34 | `substring(1)` of an anchor path is a `#…` selector, and `/` followed by it gives back the path |
| `Navigation.OnlyCareersIsRoute` | src/components/Navigation.tsx:20-30 | In the fixed item list only Careers is a route; the others query `#products`, `#saudi-2030-vision` and `#about-us` |
| `Navigation.RenderLink` | src/components/Navigation.tsx:74-105 | An item renders as an in-page anchor iff its path starts with `/#`, otherwise as a router link to its path, with `aria-current="page"` iff the pathname equals that path |
| `Navigation.CareersCurrentOnCareersPage` | src/components/Navigation.tsx:96-98 | On `/careers` the Careers link, and no other item, renders as the current router link |
| `Navigation.NavShell.constructor` | src/components/Navigation.tsx:8-9 | Both flags start false |
| `Navigation.NavShell.HandleScroll` | src/components/Navigation.tsx:12-15 | After a scroll event `isScrolled` is `scrollY > 20`; the menu flag is kept |
| `Navigation.NavShell.ToggleMobileMenu` | src/components/Navigation.tsx:128 | The menu button flips the menu flag and keeps `isScrolled` |
| `Navigation.NavShell.HandleNavClick` | src/components/Navigation.tsx:32-40 | The document is queried iff the path starts with `/#`, with the path minus its first character; the menu ends closed (for every path the bar passes, all valid selectors); `isScrolled` is kept |
| `Navigation.NavShell.FollowMobileRouteLink` | src/components/Navigation.tsx:178 | A router link in the mobile menu closes the menu |
| `Navigation.ScrollThresholdIsStrict` | src/components/Navigation.tsx:14 | `scrollY` = 20 leaves the bar unscrolled, 20.5 scrolls it |
| `LanguageSelector.Find` | src/components/LanguageSelector.tsx:27 | `find` returns nothing iff no entry has the code, and otherwise the first entry that has it |
| `LanguageSelector.CodesDistinct` | src/components/LanguageSelector.tsx:6-9 | The table's codes are distinct |
| `LanguageSelector.CurrentAbbrev` | src/components/LanguageSelector.tsx:27 | The label shown is "ENG" for `en`, "AR" for `ar`, and nothing for any other code |
| `LanguageSelector.TriggerAriaLabel` | src/components/LanguageSelector.tsx:55 | The trigger's accessible name says English iff the language is `en`, Arabic otherwise |
| `LanguageSelector.OptionAriaLabel` | src/components/LanguageSelector.tsx:89 | An option is named "Switch to English" iff its code is `en`, "Switch to Arabic" otherwise |
| `LanguageSelector.Dropdown.constructor` | src/components/LanguageSelector.tsx:13 | The dropdown starts closed |
| `LanguageSelector.Dropdown.Toggle` | src/components/LanguageSelector.tsx:51 | The trigger flips `isOpen` and keeps the language |
| `LanguageSelector.Dropdown.Pick` | src/components/LanguageSelector.tsx:79-82 | Choosing a table entry sets the language to its code and closes the dropdown |
| `LanguageSelector.Dropdown.HandleMouseDown` | src/components/LanguageSelector.tsx:16-25 | A press outside closes the dropdown, a press inside leaves it as it was; the language is kept |

## Left out

- Rendering, animation and styling: JSX markup, motion variants (floating-point opacities, scales, durations, spring constants), the visibility observer and CSS classes.
- Hero carousel, the static content sections, the footer, the route table, the route guard, the login page, the language context's store, start-up, telemetry and the database client. They are third-party libraries, fixed copy or code that is not part of this model. `setLanguage` is modelled as an assignment to `Dropdown.language`.
- Timers: each one-second `setTimeout` is one atomic step. For the join form this step is `CompletePendingSubmit`, separate from `Submit`, so keystrokes and the close button can still run while a submission is pending. For the careers form the whole handler is one step.
- Side effects with no state in the model: `alert` becomes a returned message, and `console.error` is dropped. For a nav click, the model returns the selector it queries and leaves `scrollIntoView` to the document. Window and document listener registration is dropped, and so is `preventDefault`.
- Browser-enforced input attributes (`required`, `minLength`, `maxLength`, `pattern`, `accept`) are not checks in any handler and are not modelled. In particular the name's letters-only rule and its minimum length are not modelled.
- Only the résumé input of the careers form is modelled. Its other fields are uncontrolled inputs that hold no component state. `reset()` is modelled only as emptying the résumé input.
- `EmailRegex.IsSpace`: the fixed set of ECMAScript WhiteSpace and LineTerminator characters, with the space separators of current Unicode. An engine on an older Unicode version may differ.
- `CTA.Truncated`: strings are sequences of characters, while `slice(0, 100)` counts UTF-16 code units. A value with characters outside the Basic Multilingual Plane is cut at a different place.
- `Careers.ApplicationForm.HandleFileChange`: only the first selected file is modelled, as the handler reads only `files[0]`. The browser's replacement of the input's file before the handler runs is folded into the method.
- `Careers.ApplicationForm.HandleSubmit`: the awaited timer never rejects, so the only path into the `catch` is the failing `reset()` call, and that path is modelled. Whether `e.currentTarget` is still the form is a parameter, because the event system that clears it is not part of this model.
- `LanguageSelector.Dropdown.HandleMouseDown`: whether the pressed node lies inside the dropdown is a parameter (DOM containment). The dropdown's element is assumed to be mounted while its listener is registered.
- `Navigation.NavShell.HandleNavClick`: `document.querySelector` throws a `SyntaxError` for an anchor path whose remainder is not a valid CSS selector (such as `/#` or `/#2030`), which skips closing the menu; CSS selector parsing is not modelled, so the model closes the menu for every path. The three anchor paths of the item list are all valid selectors.
- `Navigation.NavShell.HandleScroll`: `scrollY` is a real number; floating-point rounding is not modelled.

## Findings

| source | as written | input that shows it | evidently intended | confidence | as-written member | corrected member |
|---|---|---|---|---|---|---|
| src/components/Careers.tsx:61-67 | `e.currentTarget.reset()` runs after `await`, when the event system has already set `currentTarget` to `null`. The call throws, the `catch` alerts "There was an error submitting your application", and `setFileName('')` is skipped | Any submission: pick `cv.pdf`, then submit | Reset the form and clear the name with no error alert, e.g. by taking `const form = e.currentTarget` before the `await` | medium (depends on the event system's dispatch; not executed) | `Careers.SubmitAfterDispatch` | `Careers.ApplicationForm.HandleSubmitCapturingForm` |
