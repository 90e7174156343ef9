# Portfolio page script: a Dafny model of its decision logic

The portfolio page's `script.js` wires a static page to the browser: a
light/dark theme switch kept in `localStorage`, a mobile navigation drawer,
highlighting of the nav link for the section being read, a navbar that turns
more opaque on scroll, and a contact form that is validated, "sent" with a
simulated delay and answered with a notification banner.

This project models that logic with the document treated as plain state:

- class lists are `set<string>`;
- `localStorage` is a `map<string, string>`;
- the attached notification banners are a `seq` of `Banner` objects;
- the nav links are an `array` of (href, classes) records that the scroll
  handler restyles in place.

The steps the script defers with `setTimeout` are methods the caller invokes:

- sliding a banner in (`Banner.SlideIn`);
- hiding it (`Banner.SlideOut`);
- detaching it 300 ms later (`NotificationCenter.Detach`);
- completing a submission (`Contact.CompleteSubmission`).

Modules, one per component of the page:

- `Text`: JavaScript's whitespace and `String.prototype.trim`.
- `Email`: `isValidEmail`. It is written as a decision procedure and proved
  equal to a position-by-position reading of `^[^\s@]+@[^\s@]+\.[^\s@]+$`.
- `Contact`: `validateForm`, the submit handler and the two phases of
  `submitForm`.
- `Notifications`: `showNotification` and `hideNotification`.
- `Theme`: the initial theme load and `toggleTheme`.
- `Navigation`: the drawer handlers and `updateActiveNavLink`.
- `ScrollEffects`: the navbar's opacity threshold.
- `Wrappers`: `Option`.

Points where the code's behaviour is easy to misread:

- The last run of an email address is `[^\s@]+`, so it may hold neither
  whitespace nor `@`.
- Blank fields are detected with `trim()`. The email pattern, however, is
  tested on the untrimmed value, so a padded address is rejected with the
  email error.
- A stored theme that is absent, empty or any value other than `"dark"`
  loads as light, because of `getItem(...) || "light"`.
- The active link is every link whose href equals `#${current}`. That can be
  none, or more than one. A section without an `id` makes `current` `null`,
  and the target href is then the text `"#null"`. When no section is
  reached, the target is `"#"`.

## Model

| member | source | states |
|---|---|---|
| `Text.TrimStart` | script.js:229 | the start of `trim()`: never longer than its input, and what remains is empty or starts with a non-whitespace character |
| `Text.TrimEnd` | script.js:229 | the end of `trim()`: never longer than its input, and what remains is empty or ends with a non-whitespace character |
| `Text.Trim` | script.js:229-244 | `trim()`: never longer than its input, and the result is empty or has non-whitespace characters at both ends |
| `Text.TrimStartDropsBlankPrefix` | script.js:229 | `trim()`'s start: what it drops is all whitespace, and what remains starts with a non-whitespace character |
| `Text.TrimEndDropsBlankSuffix` | script.js:229 | `trim()`'s end: what it drops is all whitespace, and what remains ends with a non-whitespace character |
| `Text.TrimEmptyIffBlank` | script.js:229-244 | `!s.trim()` holds exactly when every character of `s` is whitespace |
| `Text.TrimIdentity` | script.js:229 | a string with no whitespace at either end is its own trim |
| `Email.IndexOf` | script.js:253 | the first `@` is found (the first occurrence of `c`, and no earlier one), or there is none in the string |
| `Email.IsValidEmail` | script.js:252-255 | an accepted address is at least five characters long, and its first and last characters are neither whitespace nor `@` |
| `Email.IsValidEmailMatchesPattern` | script.js:252-255 | `isValidEmail` accepts exactly the strings `L@D.T` with `L`, `D`, `T` non-empty runs of `[^\s@]` (`D` may hold dots); both directions |
| `Email.AcceptedMatchesPattern` | script.js:252-255 | every address `isValidEmail` accepts matches the pattern |
| `Email.MatchAccepted` | script.js:252-255 | every string the pattern matches is accepted by `isValidEmail` |
| `Email.MatchIsPlainOutsideAt` | script.js:253 | in a match, the `@` is the only `@` and no character is whitespace |
| `Email.SecondAtRejected` | script.js:253 | a string with two `@` never matches |
| `Email.WhitespaceRejected` | script.js:253 | a string holding whitespace anywhere never matches |
| `Email.ValidEmailHasNoWhitespace` | script.js:252-255 | an accepted address holds no whitespace |
| `Email.ValidEmailIsTrimmed` | script.js:234 | an accepted address is its own trim and is not blank, so the emptiness test adds nothing to the pattern |
| `Email.PaddedEmailRejected` | script.js:234 | leading or trailing whitespace makes the untrimmed address invalid |
| `Email.JoinedPartsMatch` | script.js:253 | any three non-empty runs of `[^\s@]` joined as `L@D.T` match |
| `Email.PatternAcceptsShortest` | script.js:253 | `"a@b.c"` matches |
| `Email.PatternAcceptsDottedParts` | script.js:253 | `"first.last@mail.example.org"` matches: dots are allowed in the local part and inside the domain |
| `Email.PatternRejectsMissingParts` | script.js:253 | `"a@b"`, `"ab.c"` and `""` do not match |
| `Email.PatternRejectsBadRuns` | script.js:253 | `"a@b."`, `"a@.c"`, `"a@@b.c"` and `"a b@c.d"` do not match |
| `Contact.ValidateForm` | script.js:225-250 | valid iff name, email, subject and message all pass; valid means no notification; otherwise exactly one `"error"` notification, carrying the message of the first failing field in check order |
| `Contact.FirstFailureUnique` | script.js:225-250 | only one field can be the first to fail, so the error shown is determined by the data |
| `Contact.Passes` | script.js:229-244 | name, subject and message pass exactly when they are not all whitespace; the email passes exactly when the pattern accepts it, since the `trim()` test adds nothing |
| `Contact.ErrorText` | script.js:230-245 | every error text starts with `"Please enter "` |
| `Contact.BlankNameReportedFirst` | script.js:229-232 | a blank name yields only the name error, whatever the other fields hold |
| `Contact.BlankEmailFails` | script.js:234-237 | with a name present, a blank email yields only the email error |
| `Contact.PaddedEmailFails` | script.js:234-237 | with a name present, an email with whitespace added at its start or at its end yields only the email error |
| `Contact.Sending` | script.js:263-266 | the busy button reads `"Sending..."`, is disabled and has the busy classes; its other classes are unchanged |
| `Contact.Restored` | script.js:273-276 | the restored button has the saved text, is enabled and has no busy classes; its other classes are unchanged |
| `Contact.SendingRoundTrip` | script.js:261-276 | an enabled, idle button comes back unchanged from begin and complete with its saved text |
| `Contact.SubmitButton.BeginSending` | script.js:261-266 | returns the original text and leaves the button in the `Sending` state |
| `Contact.SubmitButton.FinishSending` | script.js:273-276 | leaves the button in the `Restored` state for the saved text |
| `Contact.Form.Reset` | script.js:271 | `reset()` puts the fields back to their default values |
| `Contact.OnSubmit` | script.js:196-208 | invalid data: the one error banner is shown and the button is untouched; valid data: no banner, the button is busy and its original text is kept for completion |
| `Contact.CompleteSubmission` | script.js:269-286 | form at its defaults, button restored, and the success banner is the only one attached |
| `Contact.SubmitAndComplete` | script.js:257-287 | a valid submission, once completed, leaves the form at its defaults, the button as before, and one success banner |
| `Notifications.Colour` | script.js:302-309 | `"success"` is green, `"error"` is red, and any other kind is blue |
| `Notifications.InitialClasses` | script.js:298-309 | a new banner has class `notification`, starts off screen, and carries exactly the colour of its kind |
| `Notifications.Without` | script.js:344-346 | removing a node keeps every other node and drops it; when it is absent, nothing changes |
| `Notifications.Banner.constructor` | script.js:298-309 | the new banner carries its message and its initial classes |
| `Notifications.Banner.SlideIn` | script.js:322-325 | the enter step moves the banner on screen |
| `Notifications.Banner.SlideOut` | script.js:340-341 | hiding moves the banner off screen |
| `Notifications.NotificationCenter.Show` | script.js:290-319 | the first attached banner is removed, then the new one is appended; it is then the only one |
| `Notifications.NotificationCenter.Detach` | script.js:343-347 | the banner is detached only if still attached; a repeated or stale detach changes nothing |
| `Notifications.ReplaceThenStaleHide` | script.js:290-347 | after a second show, the first banner's pending hide leaves the second as the only banner |
| `Theme.SavedTheme` | script.js:17 | a missing or empty stored theme reads as `"light"`; otherwise the stored value is used |
| `Theme.LoadTheme` | script.js:17-24 | at load, dark is applied iff the stored `theme` is exactly `"dark"`; nothing else changes |
| `Theme.Toggled` | script.js:27-37 | the dark class flips; afterwards the stored theme is `"dark"` iff dark is applied; other classes and keys are unchanged |
| `Theme.ToggleTwice` | script.js:27-37 | toggling twice restores the root classes, and the storage too when it matched the applied theme |
| `Theme.ReloadKeepsToggle` | script.js:17-37 | reloading after a toggle applies the theme the toggle chose |
| `Theme.ThemeToggle.constructor` | script.js:12-24 | initialisation applies the stored theme |
| `Theme.ThemeToggle.Toggle` | script.js:27-37 | the toggle handler performs `Toggled` on the page state |
| `Theme.ToggleTwiceRestores` | script.js:27-40 | two clicks restore the root classes, and the storage when it was in step |
| `Navigation.HamburgerClick` | script.js:50-74 | the drawer's open state flips; the new state shows all its marks (menu classes, `active`, and the bars as an X iff open); other classes are unchanged |
| `Navigation.ForceClose` | script.js:78-87 | a link click leaves the drawer closed with flat bars, whatever the prior state |
| `Navigation.ForceCloseIdempotent` | script.js:78-87 | closing twice is closing once, and a closed drawer is left as it is |
| `Navigation.HamburgerTwice` | script.js:50-74 | two hamburger clicks restore a drawer whose marks were consistent |
| `Navigation.MobileMenu.ClickHamburger` | script.js:50-74 | the hamburger handler performs `HamburgerClick` |
| `Navigation.MobileMenu.ClickNavLink` | script.js:77-89 | the link handler performs `ForceClose` |
| `Navigation.MobileMenu.Resize` | script.js:430-449 | at a width of 768 or more the drawer is force-closed; below that, nothing changes |
| `Navigation.LinkClickClosesOpenDrawer` | script.js:77-89 | link clicks on an open drawer leave it closed, including repeated clicks |
| `Navigation.Reached` | script.js:116-117 | a section is reached once `scroll >= top - 100`, i.e. its top is at most 100 px below the scroll position; the contract spells out the consequence that a section whose top is at or above the scroll position is always reached |
| `Navigation.ReachedStaysReached` | script.js:116-117 | scrolling further down never un-reaches a section |
| `Navigation.LastReached` | script.js:114-120 | the last section, in document order, with `scroll >= top - 100`, or none when no section qualifies |
| `Navigation.FindCurrent` | script.js:114-120 | the section loop yields `current`: the id of the last reached section, or `""` |
| `Navigation.Current` | script.js:114-120 | `current` is `""` when no section is reached, and otherwise the id of the reached section after which no section is reached |
| `Navigation.TargetHref` | script.js:126 | the target href is `#` followed by the id, or by the text `null` when the section has no id |
| `Navigation.CurrentInExampleLayout` | script.js:110-120 | for tops 0, 800 and 1600 and scroll 850, `current` is the second section's id; above every section it is `""` |
| `Navigation.NothingReachedTargetsBareHash` | script.js:114-126 | when no section is reached, the href that is highlighted is `"#"` |
| `Navigation.Restyle` | script.js:122-130 | a link is highlighted (active classes, no inactive ones) iff it matches; otherwise it carries the inactive classes only; other classes are unchanged |
| `Navigation.UpdateActiveNavLink` | script.js:110-131 | `current` is as above, and exactly the links whose href is `#${current}` are highlighted |
| `ScrollEffects.NavbarStyle` | script.js:138-146 | above 50 px the `/98` classes are present and the `/95` classes absent; at or below 50 px, the reverse; other classes are unchanged |
| `ScrollEffects.NavbarStyleSettles` | script.js:138-146 | further scroll events on the same side of the threshold change nothing |
| `ScrollEffects.Navbar.OnScroll` | script.js:138-146 | the scroll handler performs `NavbarStyle` |

## Left out

- Timer scheduling is not modelled: `setTimeout` delays of 100, 300, 2000 and 5000 ms, and the `debounce` utility (script.js:390-400, 410-415). The deferred steps are methods the caller invokes. A debounced handler is modelled as the one call that runs after the burst.
- Smooth scrolling (script.js:91-104, 402-408) is not modelled: `window.scrollTo` is a browser side effect.
- The IntersectionObserver reveal animations (script.js:148-189, 364-386) are not modelled: they are browser visibility callbacks.
- The parallax effect (script.js:355-362) is not modelled: it is floating-point pixel arithmetic on styles.
- Presentation-only code is not modelled: focus and blur ring classes (script.js:210-222), the `load` handler (script.js:418-427), the console banner and the injected scrollbar styles (script.js:473-519).
- `addTypingEffect` (script.js:452-468) is not modelled: nothing calls it.
- The banner's inner markup from `innerHTML` (script.js:311-316) is not modelled. Only its message and class list are. The close button's click handler is the `SlideOut` then `Detach` sequence.
- The `console.log` of the submitted data (script.js:285) is not modelled: it is diagnostic output.
- Missing elements or form fields are not modelled. The script would throw on them; the model assumes the markup provides them.
- Storage write failures are not modelled.
- Scroll offsets and window widths are integers. Fractional `pageYOffset` and `scrollY` values are not modelled.
- `NotificationCenter.Show`: `querySelector(".notification")` searches the whole document. The model tracks only the banners this script creates.
- Strings are sequences of Unicode scalar values. JavaScript's UTF-16 code units are not modelled. The whitespace set used for `\s` and `trim()` is listed out in full.
