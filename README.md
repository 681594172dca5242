# Wi-Fi QR cards: a Dafny model of the client's state machines

The application is a React client. It builds a Wi-Fi join string (`WIFI:T:<tag>;S:<name>;P:<password>;;`)
from a form and has it rendered as a QR code. A signed-in user with a confirmed email can save such
codes as "cards" in the `wifi_cards` table of a Supabase backend. This project models, without rendering,
the parts of the client that decide something:

- the saved-card cache of `CardProvider` (`cards.dfy`, module `CardStore`): fetch-replace, prepend on
  save, replace-by-id on update, filter-out on delete, clear on sign-out, and the fetch-once flag;
- the top-level phase machine of `AppContent` (`app.dfy`, `AppShell`): landing, animation, email
  verification and main, plus the one-shot welcome notice and the `/saved-cards` route guard;
- the generator form of the main page (`generator.dfy`, `Generator`): the submit predicates, the strength
  meter, the random password, the join string and the submit/reset handlers;
- the current-QR session of `GlobalProvider` (`qrsession.dfy`, `QrSession`) and its stored snapshot;
- the saved-cards page (`savedcards.dfy`, `SavedCards`): completeness filter, search, paging, capacity,
  and the delete and edit flows;
- the share panel (`share.dfy`, `Share`), the layout's remaining-cards message (`layout.dfy`, `Layout`),
  the sign-in dialog (`authmodal.dfy`, `AuthDialog`), the landing slider (`slider.dfy`, `Slider`),
  `EditableField` (`editable.dfy`, `Editable`), `Dropdown` (`dropdown.dfy`, `Menu`), the encryption
  selector (`encryption.dfy`, `EncryptionChoice`), `ProtectedWrapper` (`protected.dfy`, `Protected`),
  `QrCard` (`qrcard.dfy`, `CardView`) and the email verification screen (`emailverify.dfy`,
  `EmailVerification`);
- helpers: `Wrappers` (Option), `Text` (JavaScript truthiness, `trim`, `toLowerCase`, `includes`,
  `indexOf`, `lastIndexOf`), `Auth` (the user and `isConfirmed`), `Seqs` (filter and subsequence).

Components whose fields are updated by handlers are classes whose methods state their whole new state.
Pure expressions are functions. Each network call is a function-valued parameter that returns the
backend's answer for the request it is handed: list, insert, update, delete, resend and QR encoding.
Each asynchronous handler is one atomic step. Each timer is a pending field plus a `Fire…` method, so a
timeout is an explicit event. `Math.random` is a nondeterministic choice (`:|`). The user is
`Option<User>`, and `isConfirmed` means "a user is present and `email_confirmed_at` is set".

`saveCard` checks neither a capacity nor duplicates. The only duplicate check is the share panel's
(src/components/ShareQRCode.jsx:99), and `MAX_CARDS` is used only in messages and in `canAddMore`.

JavaScript's `length` and a regular expression without the `u` flag count UTF-16 code units, so a
character beyond U+FFFF counts twice. `Text.JsLength` gives that count, and the strength meters and the
email pattern use it.

## Model

| member | source | states |
|---|---|---|
| CardStore.InsertRequest | src/context/CardContext.jsx:35-42 | the inserted row carries the user's id, the url and title as given, and password, encryption and ssid each default to "" when absent or empty |
| CardStore.ReplaceById | src/context/CardContext.jsx:59-61 | same length; every entry whose id matches becomes the returned row, every other entry is unchanged in place |
| CardStore.RemoveById | src/context/CardContext.jsx:69 | exactly the entries with another id remain; an absent id leaves the list equal |
| CardStore.RemoveByIdKeepsOthers | src/context/CardContext.jsx:69 | the remaining entries keep their order and multiplicity; no entry with the id remains |
| CardStore.CardProvider.LatestCard | src/context/CardContext.jsx:85 | null iff the cache is empty, otherwise the first card |
| CardStore.CardProvider.FetchCards | src/context/CardContext.jsx:16-28 | without a user nothing happens; otherwise the cache becomes the listed rows (null read as empty) or stays on error, and loading ends false |
| CardStore.CardProvider.SaveCard | src/context/CardContext.jsx:30-49 | no user: returns null, cache unchanged; stored: returns the row and the cache is that row prepended to the old cache; error: null and cache unchanged; no capacity or duplicate check |
| CardStore.CardProvider.UpdateCard | src/context/CardContext.jsx:51-64 | success: returns the row and the cache is ReplaceById of the old cache; error: null and cache unchanged |
| CardStore.CardProvider.CardCount | src/context/CardContext.jsx:86 | `cardCount`: the number of cached cards |
| CardStore.CardProvider.DeleteCard | src/context/CardContext.jsx:66-70 | when the store deletes, the cache is RemoveById of the old cache; on error it is unchanged; nothing is reported to the caller |
| CardStore.CardProvider.DeleteCardChecked | src/context/CardContext.jsx:66-70 | the corrected `deleteCard`: the same cache update, and the result is true exactly when the store deleted |
| CardStore.CardProvider.SessionEffect | src/context/CardContext.jsx:73-83 | sign-out clears the cache and the flag; with a user a fetch runs iff the flag was unset, and the flag is set afterwards |
| CardStore.FetchesOncePerSession | src/context/CardContext.jsx:79-82 | two runs of the effect for the same user fetch on the first only |
| CardStore.SignOutResetsFetch | src/context/CardContext.jsx:74-82 | sign-out empties the cache, and the next sign-in fetches again |
| CardStore.SaveShowsLatest | src/context/CardContext.jsx:46 | after a successful save the stored row is `latestCard` and `cardCount` grew by exactly one |
| Text.JsLength | src/pages/Main.jsx:64-66 | `length`: between one and two UTF-16 code units per character |
| Text.JsLengthOfBmp | src/pages/Main.jsx:64-66 | `length` equals the number of characters exactly when none lies beyond U+FFFF |
| AppShell.InitialPhase | src/App.jsx:62-65 | main iff the `landingCompleted` flag is stored, otherwise landing |
| AppShell.AdvancePhase | src/App.jsx:72-73 | email verification iff the captured user is present and unconfirmed, otherwise main |
| AppShell.AuthEffectPhase | src/App.jsx:77-80 | after loading, a present unconfirmed user forces email verification and a confirmed one forces main; with no user or while loading the phase stays |
| AppShell.AuthEffectAgreesWithGate | src/App.jsx:77-80 | for a settled user the effect picks email verification exactly when the protected routes show the verification screen |
| AppShell.AuthEffectAgreesWithAdvance | src/App.jsx:70-80 | for a settled present user the effect and the delayed landing step choose the same phase |
| AppShell.SavedCardsElement | src/App.jsx:162-165 | the saved-cards page iff the user is confirmed, otherwise a redirect home |
| AppShell.AppContent.Rendered | src/App.jsx:100 | nothing is rendered while auth is loading, otherwise the current phase |
| AppShell.AppContent.HandleLandingComplete | src/App.jsx:67-69 | stores the flag, sets the phase to lottie at once and schedules the advance with the user captured now |
| AppShell.AppContent.FireAdvance | src/App.jsx:70-74 | makes the form visible and sets the phase to AdvancePhase of the captured user |
| AppShell.AppContent.AuthEffect | src/App.jsx:77-80 | the phase becomes AuthEffectPhase of the old phase; all else unchanged |
| AppShell.AppContent.WelcomeEffect | src/App.jsx:82-97 | schedules the notice iff loading is over, the user is confirmed, the ref is unset and the user's key is not stored; sets the ref for any settled confirmed user |
| AppShell.AppContent.FireWelcome | src/App.jsx:87-95 | shows the notice once and stores `toast-shown-<id>`; the invariant keeps shown plus pending notices at most one per mount |
| AppShell.LandingRunsOnce | src/App.jsx:62-74 | landing, then lottie, then the advanced phase, and a remount starts on main |
| AppShell.WelcomeAtMostOnce | src/App.jsx:82-97 | the first run schedules iff the key is absent, the second never does, and the key ends up stored |
| Generator.PasswordRequiredOnlyForWpaAndWep | src/pages/Main.jsx:55 | a password is required for WPA and WEP, not for OPEN or no selection |
| Generator.AllRequiredFieldsFilled | src/pages/Main.jsx:56-60 | submit enabled iff title and ssid are non-blank, an encryption is chosen, and the password is non-blank when required |
| Generator.IsPasswordRequired | src/pages/Main.jsx:55 | a password is required when an encryption other than OPEN is chosen |
| Generator.PasswordStrength | src/pages/Main.jsx:62-68 | 0% and no label iff empty; then by `length` in UTF-16 code units: 25% below 6, 50% below 10, 75% below 15, otherwise 100% |
| Generator.StrengthIsMonotone | src/pages/Main.jsx:62-68 | a password with more code units never gets a smaller width |
| Generator.StrengthCountsCodeUnits | src/pages/Main.jsx:64-65 | three characters beyond U+FFFF have `length` 6 and show 50%, three letters show 25% |
| Generator.RandomPassword | src/pages/Main.jsx:70-73 | 16 characters, each from the fixed charset |
| Generator.TagOf | src/pages/Main.jsx:83 | `encryption || 'nopass'`: the option's name, or `nopass` when none is chosen |
| Generator.JoinString | src/pages/Main.jsx:84 | `WIFI:T:<tag>;S:<ssid>;P:<password>;;` with nothing escaped |
| Generator.JoinStringRoundTrip | src/pages/Main.jsx:83-84 | with no ';' in name and password, the join string reads back as tag, name and password |
| Generator.JoinStringIsAmbiguous | src/pages/Main.jsx:84 | without escaping, two different name/password pairs give the same join string |
| Generator.TagOfOpenAndNone | src/pages/Main.jsx:83-84 | OPEN yields the literal tag `T:OPEN`, no selection yields `T:nopass` |
| Generator.MainPage.SubmitEnabled | src/pages/Main.jsx:56-60 | enabled iff title and ssid are non-blank, an encryption is chosen, and the password is non-blank when required |
| Generator.MainPage.EditForm | src/pages/Main.jsx:50-53 | typing sets the three form values and leaves the defaults, the encryption and the timer |
| Generator.MainPage.SelectEncryption | src/pages/Main.jsx:36 | the encryption becomes the selector's click result; the form is unchanged |
| Generator.MainPage.GenerateRandomPassword | src/pages/Main.jsx:70-75 | reachable only while a password is required (its button belongs to the password input); the password becomes 16 charset characters, and the title, ssid and new password become the form's defaults |
| Generator.MainPage.ResetForm | src/pages/Main.jsx:106 | `reset()`: the form values return to the current defaults, which stay as they were |
| Generator.MainPage.HandleNetworkSubmit | src/pages/Main.jsx:77-99 | runs only on a filled form (the submit button is disabled otherwise); without a confirmed user or when encoding fails nothing changes; otherwise the session holds the encoded url, title, password and tag, with the form hidden and the snapshot written, so a shown code has a non-blank title, a chosen encryption tag (never `nopass`) and a non-blank password unless OPEN |
| Generator.MainPage.HandleGenerateNew | src/pages/Main.jsx:101-109 | cancels the timer, returns the form to its defaults, clears the encryption, and leaves the blank QR state with the storage key removed |
| Generator.MainPage.AutoResetEffect | src/pages/Main.jsx:132-151 | after each run (the previous run's cleanup cancels a pending timer) the timer is pending exactly when a url is shown with the form hidden |
| Generator.MainPage.FireAutoReset | src/pages/Main.jsx:139-143 | the timer clears the QR state and the encryption and returns the form to its defaults |
| Generator.GenerateNewClearsTypedForm | src/pages/Main.jsx:101-109 | with the initial defaults, "generate new" empties whatever was typed |
| Generator.GeneratedPasswordSurvivesGenerateNew | src/pages/Main.jsx:74-106 | after a generated password, "generate new" restores the title, network name and generated password of that moment |
| Generator.ShowingFormCancelsAutoReset | src/pages/Main.jsx:132-151 | a shown code arms the timer, and showing the form again disarms it |
| QrSession.Restore | src/context/GlobalContext.jsx:9-16 | the password and error start empty whatever is stored; name and security are the stored values or ""; formVisible defaults to true; a falsy url is null; no snapshot gives the blank state |
| QrSession.SnapshotOmitsPassword | src/context/GlobalContext.jsx:35-43 | the snapshot does not depend on the password |
| QrSession.RestoreAfterSnapshot | src/context/GlobalContext.jsx:9-16 | reloading a written snapshot restores everything but the password and error |
| QrSession.GlobalProvider.SaveQR | src/context/GlobalContext.jsx:18-46 | returns true iff the user is confirmed; no user or an unconfirmed user sets one of two distinct errors and changes nothing else; success sets url, name, password, security, hides the form, clears the error and writes the password-free snapshot |
| QrSession.GlobalProvider.ResetQR | src/context/GlobalContext.jsx:48-56 | the blank state with the form visible, and the storage key removed |
| QrSession.GlobalProvider.SetFormVisible | src/context/GlobalContext.jsx:15 | only `formVisible` changes; the stored snapshot waits for the persistence effect |
| QrSession.GlobalProvider.PersistEffect | src/context/GlobalContext.jsx:58-63 | writes the snapshot of the current state, which has no password |
| QrSession.ResetIsIdempotent | src/context/GlobalContext.jsx:48-56 | resetting twice equals resetting once |
| QrSession.PasswordDoesNotSurviveReload | src/context/GlobalContext.jsx:13 | a saved password is shown in the session but is empty after a reload |
| SavedCards.SavedCardsOf | src/pages/SaveCardsPage.jsx:62 | exactly the cards with truthy url and title, in original order and multiplicity |
| SavedCards.Matches | src/pages/SaveCardsPage.jsx:66-69 | the lowered title, or the lowered ssid when it is truthy, contains the lowered query |
| SavedCards.FilteredCards | src/pages/SaveCardsPage.jsx:63-70 | a blank query keeps all; otherwise exactly the cards whose lowered title or ssid contains the lowered, untrimmed query, in order and with each matching card as often as before |
| SavedCards.LowerKeepsBlank | src/pages/SaveCardsPage.jsx:64-65 | lowering does not change whether a string is blank |
| SavedCards.SearchIgnoresQueryCase | src/pages/SaveCardsPage.jsx:63-70 | a query and its lowered form filter alike |
| SavedCards.FilteredSingle | src/pages/SaveCardsPage.jsx:63-70 | under a non-blank query a single card is kept exactly when it matches the lowered query |
| SavedCards.QueryIsNotTrimmed | src/pages/SaveCardsPage.jsx:64-68 | " home" does not match the title "home", "home" does |
| SavedCards.LoadMore | src/pages/SaveCardsPage.jsx:55-59 | raises the count by at most 3 and never above the filtered length |
| SavedCards.LoadMoreTimesIsMin | src/pages/SaveCardsPage.jsx:55-59 | k presses from v show min(v + 3k, length) cards |
| SavedCards.Shown | src/pages/SaveCardsPage.jsx:130 | the prefix of the filtered list of length min(visibleCount, filtered) |
| SavedCards.ShowsLoadMore | src/pages/SaveCardsPage.jsx:139 | the button is shown while the visible count is below the filtered length |
| SavedCards.LoadMoreShownIffHidden | src/pages/SaveCardsPage.jsx:139 | "load more" is shown iff some filtered card is not shown |
| SavedCards.CanAddMore | src/pages/SaveCardsPage.jsx:61 | fewer than 10 cards are cached |
| SavedCards.CapacityAgreesWithMessage | src/pages/SaveCardsPage.jsx:61 | `canAddMore` (fewer than 10 cards) agrees with the layout offering more cards |
| SavedCards.FailedDeleteAnnouncedAsSuccess | src/pages/SaveCardsPage.jsx:31-42 | as written, confirming a delete the store refuses shows the success notice and the cache keeps the card |
| SavedCards.RefusedDeleteReported | src/pages/SaveCardsPage.jsx:36-37 | with the corrected handler the same refused delete shows the failure notice |
| SavedCards.ConfirmDeleteNotice | src/pages/SaveCardsPage.jsx:35-37 | success notice iff the store deleted |
| SavedCards.SavedCardsPage.SetSearchQuery | src/pages/SaveCardsPage.jsx:72-74 | a changed query resets the visible count to 3 |
| SavedCards.SavedCardsPage.HandleLoadMore | src/pages/SaveCardsPage.jsx:55-59 | the visible count becomes LoadMore of the filtered length |
| SavedCards.SavedCardsPage.HandleDeleteClick | src/pages/SaveCardsPage.jsx:26-29 | remembers the id and opens the modal |
| SavedCards.SavedCardsPage.HandleConfirmDelete | src/pages/SaveCardsPage.jsx:31-42 | no selection: nothing happens; otherwise the cache loses the card when the store deletes, the notice is the success notice whatever the store answered, and the modal closes with the selection cleared |
| SavedCards.SavedCardsPage.HandleConfirmDeleteChecked | src/pages/SaveCardsPage.jsx:31-42 | the corrected handler: the same steps, with the success notice iff the store deleted |
| SavedCards.SavedCardsPage.HandleEditClick | src/pages/SaveCardsPage.jsx:44-53 | the form is shown; a confirmed user's card goes to `saveQR` (password "" and security `nopass` by default); no user and an unconfirmed user leave the two distinct errors |
| SavedCards.SavedCardsPage.HandleCardEdit | src/context/CardContext.jsx:51-64 | a field edit sent to `updateCard`: the cached card with that id becomes the stored row, or nothing changes on error |
| SavedCards.SearchResetsPaging | src/pages/SaveCardsPage.jsx:22 | a new query returns to 3 visible cards; one press adds at most 3 |
| SavedCards.EditNeverReachesStore | src/pages/SaveCardsPage.jsx:135 | as written, an edited field reaches `onEdit` but the cache keeps the old card |
| SavedCards.EditReachesStore | src/context/CardContext.jsx:59-61 | with the corrected handler the cached card shows the edited value |
| Share.ButtonActions | src/components/ShareQRCode.jsx:118-125 | copy-password iff a password exists, save-card iff the user is confirmed, the other four always present, all in declared order |
| Share.ExportFileName | src/components/ShareQRCode.jsx:83-89 | `<name>-wifi-qr.<format>` |
| Share.DownloadFileName | src/components/ShareQRCode.jsx:38 | `<name>-wifi-qr.png` |
| Share.DownloadIsPngExport | src/components/ShareQRCode.jsx:38 | the download name equals the PNG export name |
| Share.ExportFileNameInjective | src/components/ShareQRCode.jsx:83-89 | `<name>-wifi-qr.<format>` determines both name and format |
| Share.AlreadySaved | src/components/ShareQRCode.jsx:99 | some cached card has the url |
| Share.GuardKeepsUrlsDistinct | src/components/ShareQRCode.jsx:99-104 | a save that passed the duplicate guard keeps the cached urls distinct |
| Share.SaveDraft | src/components/ShareQRCode.jsx:104 | the record uses the network name as title and ssid, with password and security as given |
| Share.SavedRowFields | src/components/ShareQRCode.jsx:104 | the inserted row carries the user, url, name as title and ssid, password and security |
| Share.FailedSaveAnnouncedAsSaved | src/components/ShareQRCode.jsx:104-105 | as written, a save the store refuses shows the saved notice and the cache stays empty |
| Share.RefusedSaveReported | src/components/ShareQRCode.jsx:104-105 | with the corrected handler the same refused save shows the failure notice |
| Share.SaveCardNotice | src/components/ShareQRCode.jsx:105 | saved notice iff the store returned a row |
| Share.ShareQRCode.HandleCopyPassword | src/components/ShareQRCode.jsx:29-33 | copies the password, and nothing when there is none |
| Share.ShareQRCode.HandleExport | src/components/ShareQRCode.jsx:77-95 | with a value the file is `<name>-wifi-qr.<format>` and the menu closes |
| Share.ShareQRCode.ToggleExport | src/components/ShareQRCode.jsx:24 | the export button flips the menu |
| Share.ShareQRCode.MouseDown | src/components/ShareQRCode.jsx:108-114 | a press outside closes the export menu |
| Share.ShareQRCode.HandleSaveCard | src/components/ShareQRCode.jsx:97-106 | skipped unless the user is confirmed; refused with the cache unchanged when a cached card has the url; otherwise the cache gets the stored row prepended when the store stores it, and the notice is the saved notice either way |
| Share.ShareQRCode.HandleSaveCardChecked | src/components/ShareQRCode.jsx:97-106 | the corrected handler: the same steps, with the saved notice iff the store returned a row |
| Share.SecondSaveIsRefused | src/components/ShareQRCode.jsx:99-103 | saving the same code twice stores it once |
| Layout.Message | src/layouts/Shared.jsx:15-23 | no user: register message; 10 or more cards: max reached; otherwise `10 - count`, in 1..10 |
| Layout.MissingListCountsAsEmpty | src/layouts/Shared.jsx:18 | a missing list counts as 0 |
| AuthDialog.CalculateStrength | src/components/Shared/AuthModal.jsx:25-30 | 0% iff empty; then by `length` in UTF-16 code units: 33% below 6, 66% below 10, otherwise 100%; never the very-strong label |
| AuthDialog.CalculateStrengthIsMonotone | src/components/Shared/AuthModal.jsx:25-30 | a password with more code units never gets a smaller width |
| AuthDialog.EmailPattern | src/components/Shared/AuthModal.jsx:87 | the language of `^[^@ ]+@[^@ ]+\.[^@ .]{2,}$`, with the final segment counted in code units |
| AuthDialog.IsValidEmail | src/components/Shared/AuthModal.jsx:87 | the pattern decided by the positions of the '@' and the last '.' |
| AuthDialog.IsValidEmailMatchesPattern | src/components/Shared/AuthModal.jsx:87 | the direct check accepts exactly the strings the pattern `^[^@ ]+@[^@ ]+\.[^@ .]{2,}$` matches |
| AuthDialog.AcceptedEmailShape | src/components/Shared/AuthModal.jsx:87 | an accepted email has exactly one '@' and no space |
| AuthDialog.AcceptedEmailDomain | src/components/Shared/AuthModal.jsx:87 | a non-empty label precedes the final '.', and the final segment has no '.' and 2 or more UTF-16 code units |
| AuthDialog.EmailExamples | src/components/Shared/AuthModal.jsx:87 | `a@b.co` passes and `a@b.c` fails |
| AuthDialog.EmailRejections | src/components/Shared/AuthModal.jsx:87 | `a@b@c.com` and `a b@c.com` fail |
| AuthDialog.AstralFinalSegmentAccepted | src/components/Shared/AuthModal.jsx:87 | `a@b.` followed by one character beyond U+FFFF passes, because that character is two code units |
| AuthDialog.AuthModal.FormFields | src/components/Shared/AuthModal.jsx:70-102 | the name field is shown iff in register mode |
| AuthDialog.AuthModal.FormValid | src/components/Shared/AuthModal.jsx:75-96 | valid iff email is non-empty and matches, password non-empty, and the name non-empty when shown |
| AuthDialog.AuthModal.Meter | src/components/Shared/AuthModal.jsx:98 | the meter shows CalculateStrength of the typed password |
| AuthDialog.AuthModal.Type | src/components/Shared/AuthModal.jsx:74-100 | typing sets the three values and keeps the mode and the open state |
| AuthDialog.AuthModal.ShowRegister | src/components/Shared/AuthModal.jsx:120 | sets register mode |
| AuthDialog.AuthModal.ShowLogin | src/components/Shared/AuthModal.jsx:113 | clears register mode |
| AuthDialog.AuthModal.Submit | src/components/Shared/AuthModal.jsx:32-44 | an invalid form calls nothing; a valid one calls register or login by mode; the form resets and the dialog closes only on success |
| Slider.Clamp | src/components/SlideToStart.jsx:31-34 | the position lies in [0, 320-60] and equals the input when already in range |
| Slider.SlideToStart.HandleStart | src/components/SlideToStart.jsx:19-25 | ignored after completion; otherwise dragging starts with the grab offset |
| Slider.SlideToStart.CompleteSlide | src/components/SlideToStart.jsx:49-56 | sets completion at the far end, stops dragging, fires `onComplete` iff not yet complete |
| Slider.SlideToStart.HandleMove | src/components/SlideToStart.jsx:27-39 | ignored unless dragging; the knob follows the clamped pointer and completes at the far end, firing once |
| Slider.SlideToStart.HandleEnd | src/components/SlideToStart.jsx:41-47 | a release short of the end snaps back to 0 |
| Slider.CompletionIsPermanent | src/components/SlideToStart.jsx:19-56 | after completion another drag neither moves the knob nor fires again |
| Slider.ShortDragSnapsBack | src/components/SlideToStart.jsx:41-46 | a short drag ends at 0, incomplete |
| Editable.EditableField.Unchanged | src/components/UI/EditableField.jsx:11 | `inputValue === value`; a null value never equals the text |
| Editable.EditableField.InputDisabled | src/components/UI/EditableField.jsx:36 | the input is disabled outside edit mode |
| Editable.EditableField.ButtonDisabled | src/components/UI/EditableField.jsx:57 | the pencil/check button is disabled while editing and either saving or unchanged |
| Editable.EditableField.InputType | src/components/UI/EditableField.jsx:32 | a password field hides its text unless shown |
| Editable.EditableField.HandleSave | src/components/UI/EditableField.jsx:10-24 | unchanged: leaves edit mode without calling `onSave`; otherwise sends the text, leaves edit mode only on success, and ends not saving |
| Editable.EditableField.StartEdit | src/components/UI/EditableField.jsx:56 | the pencil enters edit mode; text, value, saving flag and eye toggle are kept |
| Editable.EditableField.ToggleShowPassword | src/components/UI/EditableField.jsx:43-46 | the eye, shown only for a password field in edit mode, flips `showPassword`; edit mode, value, text and saving flag are kept |
| Editable.EditableField.ReceiveValue | src/components/UI/EditableField.jsx:4-6 | a new `value` prop does not reset the text in the input |
| Editable.EditableField.PressCheck | src/components/UI/EditableField.jsx:54-58 | a press of the enabled check button sends the text, and edit mode ends exactly when the save succeeds |
| Editable.EditableField.Type | src/components/UI/EditableField.jsx:34-36 | the text becomes the typed string in edit mode; a disabled input (not editing) takes no text; every other field is kept |
| Editable.UntouchedEditCannotBeSaved | src/components/UI/EditableField.jsx:57 | right after the pencil, before typing, the check button is disabled |
| Editable.FailedSaveCanBeRetried | src/components/UI/EditableField.jsx:16-23 | a failed save stays in edit mode and a retry sends the same text |
| Editable.ShownPasswordStaysShown | src/components/UI/EditableField.jsx:43-56 | a password revealed with the eye stays revealed after a successful save and the next pencil press |
| Menu.Dropdown.IsControlled | src/components/UI/Dropdown.jsx:29 | the menu is controlled when `controlledOpen` is a boolean |
| Menu.Dropdown.Open | src/components/UI/Dropdown.jsx:29-30 | the prop when it is a boolean, otherwise the own flag |
| Menu.Dropdown.AlignClass | src/components/UI/Dropdown.jsx:67 | left iff align is "left" |
| Menu.Dropdown.Toggle | src/components/UI/Dropdown.jsx:47-54 | reports `next`, or the opposite of open; only an uncontrolled menu stores it |
| Menu.Dropdown.MouseDown | src/components/UI/Dropdown.jsx:33-42 | a press outside the mounted menu reports false, and closes an uncontrolled menu |
| Menu.Dropdown.MenuClick | src/components/UI/Dropdown.jsx:81 | a click in the open menu closes it iff `closeOnItemClick` |
| Menu.Dropdown.ReceiveControlledOpen | src/components/UI/Dropdown.jsx:18-30 | a new `controlledOpen` prop leaves the own flag as it was |
| Menu.TriggerTwiceUncontrolled | src/components/UI/Dropdown.jsx:47-61 | two trigger clicks open and close an uncontrolled menu |
| Menu.ControlledOnlyReports | src/components/UI/Dropdown.jsx:47-49 | a controlled menu only reports the wish and stays as the parent holds it |
| EncryptionChoice.Click | src/components/EncryptionSelector.jsx:32-35 | the selected option yields null, another yields its type; `touchEncryption` runs iff given |
| EncryptionChoice.OptionsAreExactlyTheTypes | src/components/EncryptionSelector.jsx:6-10 | exactly WPA, WEP, OPEN in that order, with distinct names |
| EncryptionChoice.ClickTwiceRestores | src/components/EncryptionSelector.jsx:33 | two clicks on the same option restore the selection |
| Protected.Gate | src/components/ProtectedWrapper.jsx:8-20 | loading first; a present unconfirmed user gets the verification screen; no user or a confirmed user gets the children |
| Protected.GateDependsOnlyOnFlags | src/components/ProtectedWrapper.jsx:6-20 | users with the same presence and confirmation are gated alike |
| CardView.FieldOf | src/components/QrCard.jsx:32 | `card[key]` for the four editable keys |
| CardView.WithField | src/components/QrCard.jsx:32 | the named field takes the value; every other field, id, owner and url are unchanged |
| CardView.LastSaveWins | src/components/QrCard.jsx:31-33 | saving a field twice keeps only the second value |
| CardView.DistinctSavesCommute | src/components/QrCard.jsx:31-33 | saves of two different fields commute |
| CardView.InfoText | src/components/QrCard.jsx:73 | a falsy field shows "None", a truthy one its text |
| CardView.PictureOf | src/components/QrCard.jsx:41-45 | the image iff `qr_url` is truthy, otherwise "No QR" |
| CardView.QrCard.EditLabel | src/components/QrCard.jsx:15 | "Cancel" iff editing, otherwise "Edit" |
| CardView.QrCard.Buttons | src/components/QrCard.jsx:10-23 | no buttons unless `isUser`; Edit iff `onEdit`, Delete iff `onDelete`, Edit first |
| CardView.QrCard.ToggleEdit | src/components/QrCard.jsx:13 | flips edit mode only |
| CardView.QrCard.HandleDelete | src/components/QrCard.jsx:19 | passes the card's id |
| CardView.QrCard.HandleSaveField | src/components/QrCard.jsx:31-35 | the local copy gets the one field changed, `onEdit` (if given) receives exactly that copy, edit mode is kept |
| CardView.EditsKeepIdentity | src/components/QrCard.jsx:31-34 | cards sent to `onEdit` keep the id, owner and url, and carry every edited value |
| EmailVerification.UserEmail | src/components/EmailVerificationScreen.jsx:11 | the user's email, or 'your email address' with no user or an empty email |
| EmailVerification.VerificationScreen.ButtonDisabled | src/components/EmailVerificationScreen.jsx:51 | the resend button is disabled exactly while resending |
| EmailVerification.VerificationScreen.Line | src/components/EmailVerificationScreen.jsx:38-47 | the success line iff the status is success, the error line iff error |
| EmailVerification.VerificationScreen.BeginResend | src/components/EmailVerificationScreen.jsx:13-15 | from an enabled button only; resending becomes true and the status is cleared |
| EmailVerification.VerificationScreen.SettleResend | src/components/EmailVerificationScreen.jsx:17-24 | success or error status by outcome, and resending ends false |
| EmailVerification.VerificationScreen.HandleResend | src/components/EmailVerificationScreen.jsx:13-25 | from an enabled button only; the request goes to the shown address and its outcome becomes the status |
| EmailVerification.ButtonLockedWhileSending | src/components/EmailVerificationScreen.jsx:51 | the button is disabled with no status while sending, and enabled afterwards |

## Findings

| source | as written | input that shows it | evidently intended | confidence | as-written member | corrected member |
|---|---|---|---|---|---|---|
| src/pages/SaveCardsPage.jsx:33-37 | `deleteCard` logs a store error and resolves, so the catch never runs | the store refuses the delete | "Failed to delete card" when the store refused | high, not executed | SavedCards.FailedDeleteAnnouncedAsSuccess | SavedCards.SavedCardsPage.HandleConfirmDeleteChecked |
| src/components/ShareQRCode.jsx:104-105 | `saveCard` returns null on a store error instead of throwing; the success notice follows unconditionally | the store refuses the insert | the saved notice only when a row came back | high, not executed | Share.FailedSaveAnnouncedAsSaved | Share.ShareQRCode.HandleSaveCardChecked |
| src/pages/SaveCardsPage.jsx:135 | a card's field edits go to `handleEditClick`, which calls `saveQR` and never `updateCard` | edit a card's SSID on the saved-cards page | the edited field written through `updateCard` | medium, not executed | SavedCards.EditNeverReachesStore | SavedCards.SavedCardsPage.HandleCardEdit |

`HandleConfirmDelete` and `HandleSaveCard` model the handlers as written. The corrected handlers
`HandleConfirmDeleteChecked` and `HandleSaveCardChecked` sit beside them. Their notices are
`ConfirmDeleteNotice` and `SaveCardNotice`. `RefusedDeleteReported` and `RefusedSaveReported` run the same
refused request through them. `HandleCardEdit` states the intended edit path beside the handler as written.

## Left out

- Supabase I/O (queries, auth calls, the profile page's `updateUser` and edge function): each call is a
  parameter that returns success with a record, or failure. Row-level scoping by user is the backend's.
- The react-query hook in src/hooks/useCards.jsx: a wrapper over library caching.
- QR rasterisation, jsPDF, file-saver, clipboard, printing and the WhatsApp link's `encodeURIComponent`:
  library calls. The encoder is a parameter `string -> Option<string>`.
- Timers and effect scheduling: each timer is an explicit pending state with a `Fire…` method. An effect
  runs only when its method is called, and the cancellation at unmount is not modelled.
- Asynchrony: each async handler is one atomic step, so interleavings are out of scope. The exception is
  `EmailVerification.VerificationScreen`, whose begin/settle halves show the in-flight state.
- Randomness: `Math.random` is an arbitrary index into the charset.
- Pixel geometry: positions are integers; `progressPercentage` and the rendered position are dropped.
- Presentation: animations, styling, i18n texts, theme, toasts (their message text), layouts, footer,
  not-found page, form chrome, delete modals and the QR preview.
- `Main.jsx`'s `handleSaveCardButton` (src/pages/Main.jsx:111-130) is not modelled: nothing passes it to
  the share panel, which does not read such a prop.
- The fifth `ssid` argument in src/pages/SaveCardsPage.jsx:50 is not modelled, because `saveQR` takes only four.
- CardStore.CardProvider.SaveCard: a stored reply is taken to carry the row (`data[0]`); an insert that
  reports success with an empty result list is not modelled.
- CardStore.CardProvider.UpdateCard: likewise, an update that reports success with an empty result list
  is not modelled. The source then maps the matching cache entries to `undefined` and returns `undefined`.
- `toLowerCase` is modelled on ASCII letters only; other Unicode case mappings are not.
