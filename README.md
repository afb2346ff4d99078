# Portfolio page: navigation bar and contact form

A model of the two pieces of sequential logic in a single-page personal
portfolio site written in React and TypeScript. Everything else on the page is
presentation.

- **Navigation bar** (`Navigation`, class `Navbar`). The bar holds four values:
  - `activeSection`: the highlighted entry, initially `"home"`.
  - `isScrolled`.
  - `isMobileMenuOpen`.
  - `theme`, read from and written to the page's theme provider.

  On every scroll event the handler sets `isScrolled` to `scrollY > 50`
  (the offset may be fractional; element tops are whole pixels). It
  then scans the six fixed entries (home, about, experience, projects, skills,
  contact) from last to first. It makes the first entry whose element exists
  and whose top is at most `scrollY + 100` active, and stops there. When no
  entry qualifies, `activeSection` is left as it was. The document is an
  input: a map from element id to that element's `offsetTop`. A missing key
  is a missing element. The scan is specified by `ScanDown`/`ActiveIndex`.
  The lemmas show that it selects exactly the greatest qualifying index, or
  nothing when none qualifies. `scrollToSection` closes the mobile menu only
  when the target element exists. It returns the top it asks the viewport to
  bring into view. The theme button maps `"dark"` to `"light"` and anything
  else to `"dark"`.
- **Contact form** (`Contact`, class `ContactForm`). The state is `formData`
  (name, email, message), `isSubmitting` and `submitStatus` (idle, success,
  error). `HandleChange` overwrites one named field. The submit handler is
  asynchronous, so it is modelled as two methods:
  - `BeginSubmit`: the synchronous start, which sets `isSubmitting`, sets
    the status to idle and returns the form as the handler captured it.
  - `FinishSubmit`: the rest — the configuration check, the sends (or the
    simulated delay) and the settlement. The payloads are built from the
    captured form. The inputs stay editable while a submission is in flight,
    so on an error the fields are left as they are at that moment.

  `HandleSubmit` runs both. The relay's configuration is a parameter, and so
  is the way each relay send settles (`Resolves`/`Rejects`). The sends
  attempted are returned in order. `Settle` is the specification: which sends
  are made, the final status, and the final fields.

Three facts about the code shape the model:
- The auto-reply is attempted only after the notification resolves. A
  rejected notification means no auto-reply is sent.
- "Submitting" is a separate `isSubmitting` flag. The status has only the
  values idle, success and error.
- The submit handler does not check that the fields are non-empty. Only the
  inputs' HTML `required` markers stop an empty form from being submitted, so
  the model accepts any form.

## Model

| member | source | states |
|---|---|---|
| `Navigation.Sections` | src/components/Navbar.tsx:27-30 | one lookup per bar entry, in bar order: entry i is present exactly when the document has an element with that id, and then holds its top |
| `Navigation.ScanDown` | src/components/Navbar.tsx:34-39 | the reverse scan starting below index k returns only an index below k whose section qualifies |
| `Navigation.ScanDownFindsGreatestBelow` | src/components/Navbar.tsx:34-39 | scanning down from k stops at i exactly when i < k, section i qualifies and no section between i and k qualifies |
| `Navigation.ScanDownNoneBelow` | src/components/Navbar.tsx:34-40 | scanning down from k finds nothing exactly when no section below k qualifies |
| `Navigation.ActiveIndex` | src/components/Navbar.tsx:34-39 | the reverse scan over all sections selects, if anything, an index in range whose element exists and whose top is at most the position |
| `Navigation.ActiveAfter` | src/components/Navbar.tsx:34-40 | when no section qualifies (all elements missing or all tops further down), the active section keeps its previous value; otherwise it becomes the id of the greatest qualifying section |
| `Navigation.ActiveIndexIsGreatestQualifying` | src/components/Navbar.tsx:32-39 | the scroll handler's scan selects index i if and only if i is the greatest index whose element exists and whose top is at most the scroll position |
| `Navigation.ActiveIndexNoneIffNoneQualifies` | src/components/Navbar.tsx:34-40 | the scan selects nothing if and only if no section qualifies |
| `Navigation.AbsentSectionNeverActive` | src/components/Navbar.tsx:27-36 | a section whose element is missing is never selected |
| `Navigation.LaterQualifyingSectionWins` | src/components/Navbar.tsx:34-38 | when two sections qualify, also with equal tops, the selected index is at least the later one's |
| `Navigation.AscendingTopsSelectBracket` | src/components/Navbar.tsx:32-38 | with all elements present and tops non-decreasing, the section k with top(k) <= position < top(k+1) (or the last section) is selected |
| `Navigation.WholePixelPosition` | src/components/Navbar.tsx:32-36 | for an integral element top, comparing with the fractional offset plus 100 is the same as comparing with its whole-pixel part plus 100 |
| `Navigation.ActiveAfterIsNavId` | src/components/Navbar.tsx:10-37 | if the active section was an id of the bar, it still is one after a scroll event |
| `Navigation.ToggledTheme` | src/components/Navbar.tsx:55-57 | the new theme is "dark" or "light", and it is "light" exactly when the old one was "dark" |
| `Navigation.ToggledThemeTwice` | src/components/Navbar.tsx:55-57 | toggling a dark or light theme twice gives it back |
| `Navigation.Navbar.constructor` | src/components/Navbar.tsx:8-10 | the bar starts unscrolled, with the menu closed and "home" active |
| `Navigation.Navbar.HandleScroll` | src/components/Navbar.tsx:23-41 | for a fractional `scrollY`, `isScrolled` becomes `scrollY > 50`; the active section becomes the one the reverse scan selects at the whole-pixel `scrollY + 100`, or stays when none does, and remains a bar id; menu and theme are unchanged |
| `Navigation.Navbar.ScrollToSection` | src/components/Navbar.tsx:47-53 | asks to scroll to the element's top only when it exists, and closes the mobile menu exactly then; nothing else changes and the active section stays a bar id |
| `Navigation.Navbar.ToggleTheme` | src/components/Navbar.tsx:55-57 | the theme becomes the toggled theme; nothing else changes |
| `Navigation.Navbar.ToggleMobileMenu` | src/components/Navbar.tsx:199 | the mobile menu flag is negated; nothing else changes |
| `Contact.WithField` | src/sections/Contact.tsx:29-34 | the named field takes the new value and the other two fields are unchanged |
| `Contact.IsGiven` | src/sections/Contact.tsx:49 | a setting is not given exactly when it is unset or the empty string |
| `Contact.IsConfigured` | src/sections/Contact.tsx:42-49 | the relay is used only with both service id and public key set, and is not used exactly when either is unset or empty |
| `Contact.NotificationRequest` | src/sections/Contact.tsx:63-71 | the first send uses the configured service id, the notification template id and the public key, and carries the notification built from the submitted form |
| `Contact.AutoReplyRequest` | src/sections/Contact.tsx:77-85 | the second send uses the configured service id, the auto-reply template id and the public key, and carries the submitted name and is addressed to the submitted email |
| `Contact.Notification` | src/sections/Contact.tsx:66-69 | the notification carries the sender's name, and its body is the sender's email, then " messaged you - ", then the message text |
| `Contact.AutoReply` | src/sections/Contact.tsx:80-83 | the auto-reply carries the sender's name and is addressed to the form's email |
| `Contact.Settle` | src/sections/Contact.tsx:47-99 | the status is never idle after a submission; it is success exactly when the relay is unconfigured or both sends resolve; success clears the fields and error keeps them; no send is made when the relay is unconfigured, otherwise the notification is sent first and the auto-reply is sent exactly when the notification resolved |
| `Contact.RetryAfterErrorResendsDraft` | src/sections/Contact.tsx:92-99 | after a failed submission the relay was configured, and resubmitting sends the same notification as the failed attempt |
| `Contact.ContactForm.constructor` | src/sections/Contact.tsx:20-27 | the form starts with empty fields, not submitting, status idle |
| `Contact.ContactForm.HandleChange` | src/sections/Contact.tsx:29-34 | the form data becomes the old data with one field replaced; the flags and status are unchanged |
| `Contact.ContactForm.BeginSubmit` | src/sections/Contact.tsx:36-39 | on entry `isSubmitting` becomes true and the status becomes idle; the fields are unchanged and returned as the form the handler captured |
| `Contact.ContactForm.FinishSubmit` | src/sections/Contact.tsx:41-102 | status and attempted sends are those of `Settle` on the form captured at submit, even if the inputs were edited since; success clears the fields and error leaves the current fields; `isSubmitting` is false on every path, the early return of the simulated send included |
| `Contact.ContactForm.HandleSubmit` | src/sections/Contact.tsx:36-103 | the whole submit handler: it ends in the state `Settle` describes, with `isSubmitting` false |

## Left out

- The page's DOM is an input; element tops are whole pixels, as `offsetTop` is. This covers `getElementById`, `offsetTop`,
  `scrollIntoView`, the window's scroll offset, and registering and removing
  the scroll listener. `ScrollToSection` returns the requested top instead
  of scrolling.
- The relay calls (`emailjs.send`) are outcomes passed in as parameters.
  Network errors and their details, the 1500 ms delay of the simulated send,
  and console logging are not modelled.
- Reading the relay settings from the build environment is a `RelayConfig`
  parameter. An unset value is `None`, and an empty string also counts as
  not given.
- The theme provider is not part of this model. Its current theme is the
  `theme` field, and the theme values it accepts are not constrained.
- Overlapping submissions are not modelled. The page disables the submit
  button while one is in flight, and a second submission would be a
  concurrency question. Because of this, `BeginSubmit` and `FinishSubmit` do
  not require the state the other one leaves.
- React's deferred state updates and re-renders are not modelled. Each
  handler's updates are applied at once.
- Animation, layout, styling and the random particle positions are
  presentation, and so are static content and the outbound-link handling in
  the projects section.
- The animated counters of the about section are not modelled. They use
  floating-point progress and animation frames, and their value parsing is a
  thin `parseInt` wrapper.
- The one-line scroll helpers of the hero section and the footer are not
  modelled. They only call the DOM.
