# Portfolio site core, modelled in Dafny

This project models the behaviour-bearing core of a single-page portfolio
site written in React and TypeScript:

- **Keyboard shortcuts and hash routing** (`src/App.tsx`). A two-key
  shortcut recogniser has five bindings: Shift+T then T toggles the theme;
  Shift+A/H/E/C then the same letter goes to About, Hero, Expertise or
  Contact. Each binding has an "armed" flag and a 750 ms sequence timeout.
  There is also the help dialog, and the current page is kept in step with
  `window.location.hash`.
- **Notification store** (`src/contexts/NotificationContext.tsx`). It holds
  at most one notification, hands out ids from a counter, and expires or
  closes entries by id.
- **Contact form** (`src/Pages/ContactMe.tsx`). The field validator
  includes the e-mail pattern `^[^\s@]+@[^\s@]+\.[^\s@]+$`. The form keeps
  per-field errors, a touched set and a submitting flag, and has change,
  blur and submit handlers.
- **Theme provider** (`src/components/Hooks/themeHook.tsx`). It holds the
  light/dark toggle, the persisted preference and the `dark` class on the
  document root.
- **Timeline** (`src/components/VerticalTimeline.tsx`). It has the event
  list, the category filter, the reveal list that a filter change resets,
  and the selected event.

Files:

| file | module | contents |
|---|---|---|
| `wrappers.dfy` | `Wrappers` | `Option` |
| `text.dfy` | `Text` | ECMAScript `trim`, the `\s` class, `toLowerCase` on ASCII letters, `substring` |
| `router.dfy` | `Router` | pages, `getPageNameFromHash`, the canonical fragment of a page |
| `theme.dfy` | `Theme` | theme names, `activeTheme`, class `ThemeProvider` |
| `notifications.dfy` | `Notifications` | notifications, the id filter, class `NotificationProvider` |
| `shortcuts.dfy` | `Shortcuts` | the shortcut recogniser as pure functions: one key press (`Dispatch`, `KeyStep`), the passing of time (`Elapse`), its invariant, and the as-written variant described under Findings |
| `app.dfy` | `Application` | class `App`: the five flags and five timeout refs as fields, `handleKeyDown` as an if/else-if chain, the hash effects |
| `contact.dfy` | `Contact` | `validateForm`, the e-mail pattern, class `ContactForm` |
| `timeline.dfy` | `Timeline` | `timelineData`, the filter, class `TimelineView` |

Timers are modelled without real time:

- The shortcut timeouts run on a virtual clock. Arming records the deadline
  `now + 750` in the binding's timeout ref. `App.AdvanceClock(ms)` runs
  every callback that falls due.
- A notification's auto-dismiss timer is modelled as the event
  `NotificationProvider.Expire(id)`. `Show` returns the id and the delay
  after which the caller delivers that event.
- `localStorage`, the document's `dark` class and the URL fragment are
  plain fields.

## Model

| member | source | states |
|---|---|---|
| Text.Trim | src/Pages/ContactMe.tsx:44-44 | `trim` never grows the string, and a non-empty result neither starts nor ends with a whitespace character |
| Text.TrimIsInnerSlice | src/Pages/ContactMe.tsx:44-46 | the trimmed value is a slice `s[lo..hi]` of the input with only whitespace cut before `lo` and after `hi` |
| Text.TrimEmptyIff | src/Pages/ContactMe.tsx:44-68 | a value trims to the empty string exactly when it is all whitespace (the "required" test) |
| Text.SubstringFrom | src/App.tsx:65-65 | `substring(start)` is the suffix from `start`, and the empty string past the end |
| Text.Utf16Length | src/Pages/ContactMe.tsx:46-46 | a string's JavaScript `length` counts UTF-16 code units: at least one and at most two per character, and zero exactly for the empty string |
| Text.Utf16LengthBmp | src/Pages/ContactMe.tsx:46-46 | on text inside the Basic Multilingual Plane the JavaScript length is the number of characters |
| Text.Utf16LengthAppend | src/Pages/ContactMe.tsx:46-46 | the length of a concatenation is the sum of the lengths |
| Text.ToLower | src/App.tsx:148-148 | lower-casing keeps the length, leaves no ASCII capital behind, keeps every other character, and moves each capital to its small letter |
| Text.ToLowerIsLetter | src/App.tsx:148-148 | for a binding letter (t, a, h, e or c), a key lower-cases to that letter exactly when it is the letter or its capital |
| Router.PageFromHash | src/App.tsx:15-22 | `#about`, `#expertise` and `#contact` name their pages; every other hash, including the empty one, gives Hero |
| Router.CanonicalFragment | src/App.tsx:59-63 | a page's fragment is empty exactly for Hero, and every other page's fragment parses back to that page |
| Router.LocationHash | src/App.tsx:65-65 | `location.hash` is empty exactly when the fragment is, and is otherwise `#` followed by the fragment |
| Router.FragmentRoundTrip | src/App.tsx:58-68 | writing a page's fragment and reading the hash back gives the same page, for all four pages |
| Router.CanonicalFragmentInjective | src/App.tsx:59-62 | distinct pages write distinct fragments |
| Router.SyncedFragment | src/App.tsx:58-68 | the page-to-hash effect rewrites the fragment only when it differs from the page's fragment, and afterwards the hash parses to the page |
| Theme.Flip | src/components/Hooks/themeHook.tsx:46-46 | the toggle updater always changes the theme |
| Theme.FlipTwice | src/components/Hooks/themeHook.tsx:46-46 | toggling twice restores the original theme |
| Theme.ActiveTheme | src/components/Hooks/themeHook.tsx:50-52 | the active theme object is the light one exactly when the name is `light`, and its `name` is the current name |
| Theme.ThemeProvider.Mount | src/components/Hooks/themeHook.tsx:19-31 | the theme starts `light`, a preference saved under `app-theme-preference` replaces it, storage and the `dark` class then agree with it, and no other storage key changes |
| Theme.ThemeProvider.Persist | src/components/Hooks/themeHook.tsx:35-42 | the effect writes the current name under `app-theme-preference` and no other key, and the root has the `dark` class exactly when the theme is dark |
| Theme.ThemeProvider.ToggleTheme | src/components/Hooks/themeHook.tsx:45-47 | the theme flips, and the stored preference and the `dark` class follow |
| Theme.ThemeProvider.Theme | src/components/Hooks/themeHook.tsx:55-58 | the theme handed to consumers carries the current name |
| Notifications.ExpiryDelay | src/contexts/NotificationContext.tsx:29-29 | a truthy duration is used as given; an absent or zero duration becomes 5000 ms |
| Notifications.WithoutId | src/contexts/NotificationContext.tsx:31-33 | filtering by id keeps exactly the entries with another id, changes nothing when no entry has that id, and on a one-entry list keeps or drops that entry |
| Notifications.WithoutIdAppend | src/contexts/NotificationContext.tsx:31-33 | the filter works entry by entry in order: filtering a concatenation filters each part, which with the one-entry case fixes the result for every list |
| Notifications.StaleIdIsNoOp | src/contexts/NotificationContext.tsx:30-34 | expiring or closing the id of a superseded notification leaves the displayed one in place |
| Notifications.Current | src/contexts/NotificationContext.tsx:44-44 | the displayed notification is the first entry, and there is none exactly when the list is empty |
| Notifications.NotificationProvider.constructor | src/contexts/NotificationContext.tsx:20-23 | the store starts empty with the counter at 0 |
| Notifications.NotificationProvider.Show | src/contexts/NotificationContext.tsx:25-35 | a fresh id is taken from the counter, the list becomes just the new entry, which is then the displayed one, and the expiry is scheduled for that id with the effective delay |
| Notifications.NotificationProvider.Expire | src/contexts/NotificationContext.tsx:30-34 | the expiry removes only entries with its id, and at most one entry is held |
| Notifications.NotificationProvider.Close | src/contexts/NotificationContext.tsx:37-41 | closing removes only entries with that id, and at most one entry is held |
| Notifications.NotificationProvider.Displayed | src/contexts/NotificationContext.tsx:44-44 | the displayed notification is the first entry of the store, and there is none exactly when the store is empty |
| Shortcuts.KeyIsLetterInEitherCase | src/App.tsx:148-148 | a key matches a binding exactly when it is the binding's letter in lower or upper case |
| Shortcuts.Preamble | src/App.tsx:124-144 | the checks before the chain decide exactly for an editable target, Escape with the dialog open, and Shift+?, and what they decide is never a shortcut outcome |
| Shortcuts.Resolve | src/App.tsx:147-164 | the key after an armed binding confirms it exactly when it is the binding's letter in either case, and cancels it otherwise |
| Shortcuts.Branch | src/App.tsx:146-173 | a binding's branches decide only about that binding; an armed binding is always resolved, never re-armed; arming needs nothing armed, Shift and the binding's letter |
| Shortcuts.ChainFrom | src/App.tsx:146-269 | the chain only confirms, cancels or arms, and it leaves a key unhandled exactly when no binding's branches apply |
| Shortcuts.Chain | src/App.tsx:146-269 | the chain's outcome is always a shortcut outcome; it never touches the help dialog |
| Shortcuts.ChainUnrolled | src/App.tsx:146-269 | the chain is the ten branches of the five bindings tried in source order (T, A, H, E, C) |
| Shortcuts.Dispatch | src/App.tsx:123-271 | the shortcut chain decides exactly when the checks before it pass, and an editable target always ends the handler |
| Shortcuts.ToggleMessageNamesNewTheme | src/App.tsx:150-156 | the theme notification names the theme the toggle switches to |
| Shortcuts.DispatchKeepsAtMostOneArmed | src/App.tsx:165-165 | because arming requires the other four flags to be clear, a key press never leaves two bindings armed |
| Shortcuts.ArmingOnlyWhenIdle | src/App.tsx:165-172 | a binding arms only when nothing is armed, and only on Shift with its letter outside an editable target |
| Shortcuts.ArmedBindingResolves | src/App.tsx:147-164 | with a binding armed, the next key that reaches the chain confirms it on its own letter and cancels it otherwise, and then nothing is armed |
| Shortcuts.ShiftTWhileAboutArmedCancelsAbout | src/App.tsx:165-188 | Shift+T while About is armed falls through to About's branch, which cancels About and arms nothing |
| Shortcuts.EditableTargetIgnoresShortcuts | src/App.tsx:124-129 | in an input, a text area or an editable element no flag changes, and only Escape closes an open help dialog |
| Shortcuts.HelpKeysLeaveFlags | src/App.tsx:131-144 | Escape with the dialog open closes it, Shift+? toggles it, and neither touches the flags |
| Shortcuts.ConfirmedOnlyByOwnLetter | src/App.tsx:147-159 | a binding fires only if it was armed and the key is its letter in either case |
| Shortcuts.ChainIsDataDriven | src/App.tsx:146-269 | while at most one binding is armed, the five hand-written copies decide exactly like one engine: resolve the armed binding, or arm the binding whose letter the Shift key carries |
| Shortcuts.KeyMatchesOneBinding | src/App.tsx:146-269 | no key matches two bindings |
| Shortcuts.KeyStep | src/App.tsx:165-172 | a key press leaves the clock alone, gives a newly armed binding a deadline 750 ms ahead, and nulls the ref of a binding it disarms |
| Shortcuts.Expire | src/App.tsx:169-172 | one binding's timeout callback, run when its deadline has passed; what it changes is stated by `Shortcuts.ExpireAt` |
| Shortcuts.Elapse | src/App.tsx:169-172 | time passes and every callback that has fallen due runs; what it changes is stated by `Shortcuts.ElapseAt` |
| Shortcuts.ExpireAt | src/App.tsx:169-172 | a binding's timeout callback clears only that binding's flag and ref, and only when its deadline has passed |
| Shortcuts.ElapseAt | src/App.tsx:169-172 | after `ms` milliseconds a binding is armed exactly when it was armed and its deadline has not passed |
| Shortcuts.IdleIsCoherent | src/App.tsx:31-49 | the initial state (nothing armed, all refs null) satisfies the recogniser invariant |
| Shortcuts.KeyStepCoherent | src/App.tsx:123-271 | a key press keeps the invariant: at most one armed, a live timer exactly for the armed binding, due within 750 ms |
| Shortcuts.ElapseCoherent | src/App.tsx:169-172 | the passing of time keeps the same invariant |
| Shortcuts.TimeoutDisarms | src/App.tsx:169-172 | 750 ms or more without a key leaves nothing armed and every ref null |
| Shortcuts.ArmedUntilTimeout | src/App.tsx:165-172 | a freshly armed binding stays armed for every wait shorter than 750 ms |
| Shortcuts.KeyStepAsWritten | src/App.tsx:273-283 | as written, a key press decides and sets the flags as `KeyStep` does, but every timeout ref ends cancelled |
| Shortcuts.ArmedNeverExpiresAsWritten | src/App.tsx:273-283 | with the listener effect's cleanup clearing every timer after arming, an armed binding stays armed however long the wait |
| Shortcuts.LateConfirmFiresOnlyAsWritten | src/App.tsx:273-283 | Shift+T, 1000 ms, then `t`: as written the theme toggles; with the timeout kept alive the `t` is unhandled |
| Application.App.constructor | src/App.tsx:29-29 | the page is parsed from the initial hash, the hash is then synced to the page, nothing is armed and the help dialog is closed |
| Application.App.SyncLocation | src/App.tsx:58-68 | the fragment is written only when it differs from the page's fragment, and afterwards the hash parses to the page |
| Application.App.SetCurrentPage | src/App.tsx:58-68 | setting a different page runs the page-to-hash effect; setting the same page changes nothing |
| Application.App.OnHashChange | src/App.tsx:72-75 | after the browser moves to a new fragment, the page is the one that fragment names, and URL and page agree |
| Application.App.OpenHelpModal | src/App.tsx:120-120 | the help dialog is open |
| Application.App.CloseHelpModal | src/App.tsx:121-121 | the help dialog is closed |
| Application.App.Arm | src/App.tsx:165-172 | arming sets the binding's flag and its ref to a deadline 750 ms ahead, and touches nothing else |
| Application.App.Disarm | src/App.tsx:160-164 | cancelling clears the binding's flag and nulls its ref, and touches nothing else |
| Application.App.RunAction | src/App.tsx:147-150 | the theme binding flips the theme and rewrites the stored preference, with no other storage key changed; a navigation binding sets its page and, when the page changes, rewrites the URL fragment |
| Application.App.Announce | src/App.tsx:151-155 | one 2000 ms info notification with the binding's message is shown, under a fresh id |
| Application.App.Fire | src/App.tsx:147-159 | a confirmed binding toggles the theme or navigates (rewriting the fragment only for a new page), shows one 2000 ms info notification naming the action, and is disarmed |
| Application.App.ResolveArmed | src/App.tsx:147-164 | with the binding armed, its letter fires it and any other key cancels it; either way it is disarmed |
| Application.App.BindingBranch | src/App.tsx:147-173 | a binding's two branches decide as `Branch`, apply its flag, ref and effects, and change nothing when neither applies |
| Application.App.ShortcutChain | src/App.tsx:146-269 | the imperative chain decides as `Chain` and leaves the flags, refs, theme, stored preference, page, URL fragment and notifications as that outcome prescribes; no other storage key changes |
| Application.App.HandleKeyDown | src/App.tsx:123-271 | the handler decides as `Dispatch` and moves the recogniser by `KeyStep`. It updates the help dialog by the outcome and keeps the app invariant. The URL fragment changes only when a navigation goes to a different page, and then by the page-to-hash effect. Storage changes only by the theme toggle's rewrite of the preference key |
| Application.App.ExpireIfDue | src/App.tsx:169-172 | a binding's timeout callback runs exactly when its deadline has passed |
| Application.App.AdvanceClock | src/App.tsx:169-172 | the recogniser moves by `Elapse`, and the page, URL and dialog are untouched |
| Contact.Set | src/Pages/ContactMe.tsx:77-77 | the spread update sets one field and keeps the other three |
| Contact.SetGetSet | src/Pages/ContactMe.tsx:77-77 | writing back a field's value changes nothing, and the later of two writes wins |
| Contact.RegexMatches | src/Pages/ContactMe.tsx:51-51 | the pattern as a split into local part, `@`, domain, `.` and suffix; a match is at least five characters long and neither starts nor ends with `@` |
| Contact.RegexMatchesIff | src/Pages/ContactMe.tsx:51-51 | the pattern matches exactly when there is no whitespace, exactly one `@` and not first, and a `.` after it with at least one character on each side |
| Contact.ValidateForm | src/Pages/ContactMe.tsx:40-73 | a field has an entry in the error record exactly when it has an error, and the entry is that error |
| Contact.FieldError | src/Pages/ContactMe.tsx:43-70 | a field's error is its "required" message exactly when the value is all whitespace, and otherwise at most its one other message |
| Contact.NameErrorIff | src/Pages/ContactMe.tsx:43-48 | the name error is "required" exactly when the name is all whitespace, "at least 2" exactly when the trimmed name is one UTF-16 code unit long, and absent otherwise |
| Contact.EmailErrorIff | src/Pages/ContactMe.tsx:50-56 | the e-mail error is "required" exactly when the value is all whitespace, "invalid" exactly when it has other characters but fails the pattern, and absent exactly when it has the e-mail shape |
| Contact.SubjectErrorIff | src/Pages/ContactMe.tsx:58-63 | the subject error is "required" exactly when it is all whitespace, "at least 5" for a trimmed length of 1 to 4 UTF-16 code units, and absent from 5 |
| Contact.MessageErrorIff | src/Pages/ContactMe.tsx:65-70 | the message error is "required" exactly when it is all whitespace, "at least 10" for a trimmed length of 1 to 9 UTF-16 code units, and absent from 10 |
| Contact.AstralNameIsLongEnough | src/Pages/ContactMe.tsx:46-46 | a name made of the single character U+1F600 is two code units long and passes |
| Contact.PaddedEmailIsInvalid | src/Pages/ContactMe.tsx:52-56 | the pattern sees the untrimmed value, so a well-formed address with a leading space is rejected as invalid |
| Contact.Refreshed | src/Pages/ContactMe.tsx:91-91 | the blur update takes one field's entry from the fresh validation and keeps every other entry |
| Contact.NoErrorsIff | src/Pages/ContactMe.tsx:111-111 | the error record is empty exactly when no field has an error |
| Contact.ValidFormIff | src/Pages/ContactMe.tsx:40-73 | a form passes exactly when the trimmed name is at least 2 UTF-16 code units long, the e-mail has the e-mail shape, the trimmed subject at least 5 and the trimmed message at least 10 |
| Contact.EmptyFormErrors | src/Pages/ContactMe.tsx:40-73 | the empty form has all four "required" errors |
| Contact.ContactForm.constructor | src/Pages/ContactMe.tsx:27-37 | the form starts empty, with no errors, nothing touched and not submitting |
| Contact.ContactForm.DisplayedError | src/Pages/ContactMe.tsx:262-266 | a field shows an error exactly when it is touched and has one, and it shows that error |
| Contact.ContactForm.HandleInputChange | src/Pages/ContactMe.tsx:76-83 | typing sets only that field and removes only that field's error |
| Contact.ContactForm.HandleInputBlur | src/Pages/ContactMe.tsx:86-92 | leaving a field marks it touched, refreshes only its error from a fresh validation, and then shows exactly that field's validation error |
| Contact.ContactForm.MarkTouched | src/Pages/ContactMe.tsx:87-87 | the field joins the touched set |
| Contact.ContactForm.RefreshError | src/Pages/ContactMe.tsx:90-91 | only the field's error is replaced by the fresh validation's |
| Contact.ContactForm.HandleSubmit | src/Pages/ContactMe.tsx:95-154 | an invalid form gets all fields touched, the errors stored and shown, and a 5000 ms error notification, with the data and the submitting flag unchanged. A valid form is sent: on success a 7000 ms success notification and an empty, untouched form; on failure a 5000 ms error notification. The submitting flag ends false and exactly one notification is shown |
| Timeline.CategoryConfigTotal | src/components/VerticalTimeline.tsx:129-134 | every category has a badge entry |
| Timeline.BadgeLabel | src/components/VerticalTimeline.tsx:296-296 | every category's badge label is non-empty |
| Timeline.BadgeLabelInjective | src/components/VerticalTimeline.tsx:129-134 | distinct categories carry distinct badge labels |
| Timeline.FilterEvents | src/components/VerticalTimeline.tsx:107-109 | the filtered list holds exactly the events that match the filter, and is no longer than the input |
| Timeline.FilterAllIsIdentity | src/components/VerticalTimeline.tsx:107-109 | filter `all` returns every event in its original order |
| Timeline.FilterAppend | src/components/VerticalTimeline.tsx:107-109 | filtering a concatenation filters each part |
| Timeline.FilterIdempotent | src/components/VerticalTimeline.tsx:107-109 | filtering an already filtered list again changes nothing |
| Timeline.FilterPositions | src/components/VerticalTimeline.tsx:107-109 | the filtered list is the subsequence of the input at increasing positions, and every matching position is among them |
| Timeline.TimelineView.constructor | src/components/VerticalTimeline.tsx:102-104 | the filter starts at `all`, nothing is revealed and nothing is selected |
| Timeline.TimelineView.FilteredEvents | src/components/VerticalTimeline.tsx:107-109 | the shown events are exactly those of `timelineData` that match the active filter |
| Timeline.TimelineView.SetActiveFilter | src/components/VerticalTimeline.tsx:125-127 | the filter is set, and the reveal list is emptied exactly when the filter changed, so that no card is drawn revealed |
| Timeline.TimelineView.RevealEvent | src/components/VerticalTimeline.tsx:116-116 | a reveal appends its index to the reveal list: that card is drawn revealed and every card revealed before stays revealed |
| Timeline.TimelineView.IsRevealed | src/components/VerticalTimeline.tsx:190-190 | a card is drawn revealed exactly when its index is in the reveal list |
| Timeline.TimelineView.SelectEvent | src/components/VerticalTimeline.tsx:228-228 | clicking a card selects that card's event, which is a matching event of `timelineData` |
| Timeline.TimelineView.CloseDetails | src/components/VerticalTimeline.tsx:332-332 | the overlay or the close button clears the selection |

## Left out

- Rendering, JSX, Tailwind classes, icons, colour strings and theme style tokens; only a theme's `name` is modelled.
- The scroll listener and its `is-scrolling` class (src/App.tsx:84-118). It is DOM plumbing.
- The help dialog's own Escape listener and its static shortcut table (src/components/HelpModal.tsx). Its "Shift + L + L" row has no handler and is not modelled.
- The hero page's session-storage "seen help" flag and its delayed notification (src/Pages/Hero.tsx). These are browser storage I/O plus a timer.
- Real timers, listener registration and `preventDefault`. Timeouts are a virtual clock, and notification expiry is an explicit event.
- Timeline.TimelineView.RevealEvent: the staggered reveal schedule of the timeline (src/components/VerticalTimeline.tsx:112-122) is not modelled; a reveal is the explicit event `RevealEvent(index)`. In the source, line 107 builds `filteredEvents` as a new array on every render, so the reveal effect, which depends on it, re-runs after every render, including the render that each reveal itself causes. Its cleanup clears only the outer 100 ms timer, so per-card timers already scheduled keep firing, also after a filter change. The reveal list therefore keeps receiving duplicate indices without bound, and stale reveals land after a filter reset. `RevealEvent` and `SetActiveFilter` do not capture those duplicates or stale reveals.
- React re-rendering, update batching and stale closures. Each handler is one atomic step on the current state. Among the modelled handlers, the one place where re-rendering changes behaviour is modelled separately (see Findings); the timeline's reveal effect, which re-runs on every render, is described in the line above.
- The 2000 ms simulated send in the contact form (src/Pages/ContactMe.tsx:125). It is one step whose result, `Delivered` or `DeliveryFailed`, is a parameter; the failure stands for the `catch` branch.
- The unreachable `useTheme` throw. The context always has a default value.
- `getPageNameFromHash` looks the hash up in a plain object. Keys inherited from the object prototype cannot occur, because every non-empty `location.hash` starts with `#`. The route table is modelled as a map.
- Text.ToLowerIsLetter: `toLowerCase` is modelled on the ASCII letters only; other characters are left unchanged. JavaScript also lower-cases a few other characters to ASCII: U+212A KELVIN SIGN becomes `k`, and U+0130 becomes `i` followed by a combining dot. No character other than the letter and its capital lower-cases to exactly `t`, `a`, `h`, `e` or `c`, so the five bindings see the same keys.
- Notifications.NotificationProvider.Show: the id `notif-N` is modelled as the number N. The id counter is module-level in the source, so it is shared by every provider instance. The model keeps it in the one provider.
- Notifications.NotificationProvider.Show: the duration is the `int` the caller passes; JavaScript number semantics (fractions, `NaN`) are not modelled.
- Theme.ThemeProvider.Mount: storage values are modelled as theme names, so the saved preference is absent, `light` or `dark`. The source casts any stored string without checking it.
- Contact.ContactForm.HandleInputBlur: an error entry set to `undefined` is modelled as a missing key. Both are falsy, so the displayed errors are the same.
- Timeline.TimelineEvent: the description, colour and icon of each event are not modelled; the fields that are modelled match `timelineData`.

## Findings

| source | as written | input that shows it | evidently intended | confidence | as-written member | corrected member |
|---|---|---|---|---|---|---|
| src/App.tsx:273-283 | The keydown effect depends on `handleKeyDown`, and its cleanup clears all five sequence timeouts. Arming changes a flag that `handleKeyDown` depends on, so the re-render's cleanup cancels the 750 ms timeout that arming just scheduled. An armed binding never expires (`Shortcuts.ArmedNeverExpiresAsWritten`). | Shift+T, then no key for 1000 ms, then `t`: the theme still toggles (`Shortcuts.LateConfirmFiresOnlyAsWritten`). | An armed binding is dropped 750 ms after arming, so the late `t` does nothing. | not executed | Shortcuts.KeyStepAsWritten | Shortcuts.KeyStep |
