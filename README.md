# cloud-drive-hub: the logic inside the screens

A model, in Dafny, of the small pieces of logic embedded in the React
screens of a materials-sharing web application, with proofs of what they
promise:

- **Typewriter** (`src/pages/Index.tsx`): the landing page's typing
  animation. Its state is `(displayText, isDeleting, loopNum)` over four fixed
  phrases. A `TypewriterEffect` class holds those three fields. `Tick` is the
  effect's timer firing and `DeferredStartDeleting` is the delayed
  `setIsDeleting(true)`. Both are specified by the pure step functions
  `TickStep` and `DeferredStep`. The main invariant: from the initial state,
  whatever order the events come in, the text is a prefix of the current
  phrase.
- **CategoryPage** (`src/pages/CategoryPage.tsx`): the upload flow's guards
  (signed-in user, then title and file), the storage path
  `userId/timestamp.ext`, the uploader name, the form reset and the
  `uploading` flag. Also the download guard, the unknown-category check and
  the "Unknown size" branch of the size label. The class `CategoryView` holds
  `showUpload`, `uploading` and `uploadForm`. `HandleUpload` is specified by
  the function `Upload`.
- **AuthPage** (`src/pages/AuthPage.tsx`): `validate` builds the error
  dictionary key by key. `handleSubmit` runs over `loading` and `authError`,
  and the mode switch flips sign-in and sign-up. The class `AuthForm` holds
  the component state. Its methods are specified by `ValidationErrors`,
  `Submit` and `ModeToggled`.
- **ThemeToggle** (`src/components/ThemeToggle.tsx`): the mount effect picks
  the initial theme from the saved preference and the system preference.
  `toggleTheme` keeps `isDark`, the root element's `dark` class and the stored
  `theme` entry in step. `ThemeSwitch` holds `isDark`. It writes a `Browser`
  object whose class set and local-storage map it modifies. Its methods are
  specified by `ResolveInitial` and `Toggle`.
- **Strings**: the JavaScript string operations the above rely on: `split`
  with one separator character, `trim`, and the decimal text of a whole
  number. Each comes with the lemmas that characterise it.

Collaborators become parameters, and their effects become values:
- Supabase storage, the database insert and `getPublicUrl` become parameters:
  `BackendResult` outcomes and a `publicUrl` function. The calls made are
  returned as a `BackendCall` sequence.
- `Date.now()` becomes the parameter `now`. The system colour-scheme query
  becomes `prefersDark`.
- The email schema becomes the constructor parameter `isEmail`. The
  sign-in/sign-up answer becomes `AuthResponse`.
- Navigation, `window.open` and toasts are returned as outcomes
  (`UploadOutcome`, `DownloadAction`, `navigateHome`).

`handleDownload` only checks for a user and opens `file_url`; it has no
fallback or response validation.

## Model

| member | source | states |
|---|---|---|
| Typewriter.PhraseIndex | src/pages/Index.tsx:19-41 | `loopNum % phrases.length` is always a valid index into the four-phrase list, and consecutive loop numbers give consecutive indices modulo four |
| Typewriter.Substring0 | src/pages/Index.tsx:52-56 | `substring(0, end)` gives a prefix of the phrase whose length is `end` clamped into `0..length` |
| Typewriter.TickStep | src/pages/Index.tsx:45-58 | one timer firing: hold and schedule on a fully typed phrase, advance to the next phrase when deletion is done, otherwise type or delete one character. Its properties are carried by TypingTick, DeletingTick, ExhaustedTickAdvances, FullyTypedTickHolds, TickKeepsInv and TickMovesAtMostOne |
| Typewriter.DeferredStep | src/pages/Index.tsx:47 | the deferred `setIsDeleting(true)` turns deleting on and changes nothing else. Its invariant is carried by DeferredKeepsInv and RunKeepsInv |
| Typewriter.TypingTick | src/pages/Index.tsx:51-55 | a tick that is not deleting, on a text other than the phrase, leaves the flags alone and schedules nothing. Under the invariant it sets the text to the phrase's prefix one character longer |
| Typewriter.DeletingTick | src/pages/Index.tsx:51-54 | a deleting tick on a non-empty text leaves the flags alone. Under the invariant it sets the text to the phrase's prefix one character shorter, which is also the old text minus its last character |
| Typewriter.ExhaustedTickAdvances | src/pages/Index.tsx:48-50 | a deleting tick on the empty text stops deleting, adds exactly one to `loopNum`, keeps the text empty and moves the phrase index to the next phrase |
| Typewriter.FullyTypedTickHolds | src/pages/Index.tsx:46-47 | a tick schedules the deferred action exactly when the phrase is fully typed and not deleting, and then changes no state. No tick ever turns deleting on; the deferred action does |
| Typewriter.TickKeepsInv | src/pages/Index.tsx:45-58 | every tick keeps the text a prefix of the current phrase |
| Typewriter.DeferredKeepsInv | src/pages/Index.tsx:47 | the deferred `setIsDeleting(true)` keeps the invariant whenever it fires |
| Typewriter.TickMovesAtMostOne | src/pages/Index.tsx:46-56 | from the invariant, a tick changes the length of the text by at most one |
| Typewriter.RunKeepsInv | src/pages/Index.tsx:40-61 | any sequence of ticks and deferred actions keeps the text a prefix of the current phrase, so no longer than it |
| Typewriter.ReachableStatesKeepInv | src/pages/Index.tsx:16-61 | every state reachable from `("", false, 0)` satisfies the invariant |
| Typewriter.TypewriterEffect.constructor | src/pages/Index.tsx:16-18 | the animation starts with empty text, not deleting, at loop 0 |
| Typewriter.TypewriterEffect.Tick | src/pages/Index.tsx:45-58 | one timer firing updates the three fields as `TickStep` says, reports whether it scheduled the deferred action, and keeps the invariant |
| Typewriter.TypewriterEffect.DeferredStartDeleting | src/pages/Index.tsx:47 | the deferred action sets `isDeleting` and nothing else, keeping the invariant |
| Strings.Split | src/pages/CategoryPage.tsx:95 | `split` with a one-character separator gives at least one piece, and no piece contains the separator |
| Strings.JoinSplit | src/pages/CategoryPage.tsx:95 | joining the pieces of `split` with the separator gives back the original text |
| Strings.SplitFirst | src/pages/CategoryPage.tsx:118 | the first piece of `split` is the longest separator-free prefix |
| Strings.SplitLast | src/pages/CategoryPage.tsx:95 | the last piece of `split` (`pop()`) is the longest separator-free suffix. With one piece, that piece is the whole text |
| Strings.Trim | src/pages/AuthPage.tsx:52 | `trim()` is empty exactly when every character is ECMAScript white space or a line terminator |
| Strings.DecimalDigits | src/pages/CategoryPage.tsx:96 | the decimal text of a number is non-empty, all digits, and has no leading zero |
| Strings.DecimalRoundTrip | src/pages/CategoryPage.tsx:96 | reading the decimal text of the timestamp gives the timestamp back |
| CategoryPage.FileExtension | src/pages/CategoryPage.tsx:95 | the extension is the dot-free suffix that follows the last dot, or the whole name when there is no dot |
| CategoryPage.UploaderName | src/pages/CategoryPage.tsx:118 | the uploader name is the email's text before its first `@`. It is "Anonymous" when there is no email or that text is empty, so it is never empty |
| CategoryPage.StoragePath | src/pages/CategoryPage.tsx:96 | the path template `userId/now.ext`. Its properties are carried by StoragePathInUserFolder, StoragePathKeepsExtension and DistinctTimesDistinctPaths |
| CategoryPage.StoragePathInUserFolder | src/pages/CategoryPage.tsx:96 | the storage path begins with the user's id followed by `/`. For an id without `/`, its first `/`-segment is exactly the id |
| CategoryPage.StoragePathKeepsExtension | src/pages/CategoryPage.tsx:95-96 | the stored object's extension is the extension of the picked file |
| CategoryPage.DistinctTimesDistinctPaths | src/pages/CategoryPage.tsx:96 | two uploads by one user at different clock readings get different storage paths |
| CategoryPage.CanUpload | src/pages/CategoryPage.tsx:79-90 | the two guards of the upload, a signed-in user and then a file and a non-empty title. Used by UploadSettles, where backend calls happen exactly when it holds |
| CategoryPage.Upload | src/pages/CategoryPage.tsx:77-140 | one run of the upload: its outcome, its backend calls and the page state it leaves. Its properties are carried by UploadWithoutUserRedirects, UploadMissingFields, UploadSettles, UploadResetsOnlyOnSuccess and InsertedRowMatchesStoredFile |
| CategoryPage.UploadWithoutUserRedirects | src/pages/CategoryPage.tsx:79-82 | with no user the upload redirects to sign-in, makes no storage upload or insert, and changes no state |
| CategoryPage.UploadMissingFields | src/pages/CategoryPage.tsx:83-90 | with a user but no file or an empty title, the upload shows "Missing fields", makes no backend call and never sets `uploading` |
| CategoryPage.UploadSettles | src/pages/CategoryPage.tsx:92-139 | backend calls happen exactly when the guards pass. The first is the storage upload under the computed path. A failed storage upload is the only call. A stored file is always followed by the insert, as the second and last call. `uploading` ends false. The upload succeeds exactly when both backend calls do, and otherwise reports the error |
| CategoryPage.UploadResetsOnlyOnSuccess | src/pages/CategoryPage.tsx:123-136 | success leaves an empty title and description, no file and a hidden form. Failure keeps the form as the user left it |
| CategoryPage.InsertedRowMatchesStoredFile | src/pages/CategoryPage.tsx:98-121 | a row is inserted only after its file was stored, as the second call. It carries the form's title and description. Its URL is that path's public URL. It carries the file's name, the file's size, the page's category, and the user's id and uploader name |
| CategoryPage.HandleDownload | src/pages/CategoryPage.tsx:142-150 | without a user the download goes to sign-in. With a user it opens the file's URL exactly when that URL is present and non-empty, and that URL is the one opened |
| CategoryPage.FormatFileSize | src/pages/CategoryPage.tsx:152-153 | the label is "Unknown size" exactly for a missing or zero size |
| CategoryPage.CategoryFoundAsWritten | src/pages/CategoryPage.tsx:167 | the not-found check as written: a non-empty category whose lookup on the label object is truthy, including the inherited object members. InheritedNameIsFoundAsWritten exhibits the discrepancy |
| CategoryPage.InheritedNameIsFoundAsWritten | src/pages/CategoryPage.tsx:167 | as written, the category "constructor", which is not a known category, passes the not-found check |
| CategoryPage.IsKnownCategory | src/pages/CategoryPage.tsx:23-27 | the corrected check accepts exactly cloud, devops and linux. Whatever it accepts, the check as written accepts too |
| CategoryPage.View | src/pages/CategoryPage.tsx:167-206 | the page with the corrected category check: "Category not found" exactly for a category other than cloud, devops and linux, and otherwise the heading `categoryLabels[category]` of that category. On every name that is not an inherited object member it agrees with the check as written |
| CategoryPage.CategoryView.constructor | src/pages/CategoryPage.tsx:48-54 | the page starts with the form hidden, not uploading, and an empty form |
| CategoryPage.CategoryView.ToggleUploadForm | src/pages/CategoryPage.tsx:218 | the upload button sends a visitor to sign in, and otherwise shows or hides the form |
| CategoryPage.CategoryView.CancelUpload | src/pages/CategoryPage.tsx:286 | cancel hides the form and changes nothing else |
| CategoryPage.CategoryView.SetTitle | src/pages/CategoryPage.tsx:245-247 | typing a title changes only the form's title |
| CategoryPage.CategoryView.SetFile | src/pages/CategoryPage.tsx:257-262 | picking a file changes only the form's file |
| CategoryPage.CategoryView.SetDescription | src/pages/CategoryPage.tsx:272-274 | typing a description changes only the form's description |
| CategoryPage.CategoryView.HandleUpload | src/pages/CategoryPage.tsx:77-140 | the outcome, the backend calls and the new page state are those of `Upload` on the old state |
| AuthPage.ValidationErrors | src/pages/AuthPage.tsx:33-55 | the dictionary has only the keys email, password and fullName. `email` is present exactly when the schema rejects the email. `password` is present exactly when it is shorter than 6 characters. `fullName` is present exactly in sign-up mode with a blank name. Each present key holds its source message |
| AuthPage.ValidExactlyWhenNoErrors | src/pages/AuthPage.tsx:56-57 | the form is valid, meaning the dictionary has no keys, exactly when the email is accepted, the password has 6 or more characters and, in sign-up mode, the trimmed name is non-empty |
| AuthPage.SignInIgnoresName | src/pages/AuthPage.tsx:52-54 | in sign-in mode the name never affects validation |
| AuthPage.Submit | src/pages/AuthPage.tsx:60-87 | one submit: the auth call made, whether it navigates to `/`, and the new form state. Its properties are carried by InvalidSubmitCallsNothing, SubmitReplacesErrors and ValidSubmitSettles |
| AuthPage.InvalidSubmitCallsNothing | src/pages/AuthPage.tsx:62 | an invalid form calls neither sign-in nor sign-up, does not navigate, and leaves `loading` and `authError` unchanged |
| AuthPage.SubmitReplacesErrors | src/pages/AuthPage.tsx:56 | after a submit, the stored errors are exactly the fresh dictionary, so earlier errors are replaced and not merged. The mode and the fields are unchanged |
| AuthPage.ValidSubmitSettles | src/pages/AuthPage.tsx:64-86 | a valid form calls exactly its mode's operation, and `loading` ends false. `authError` is empty exactly on success and otherwise holds the refusal's message or the unexpected-error message. Only a successful sign-in navigates to `/` |
| AuthPage.ModeToggled | src/pages/AuthPage.tsx:202-206 | the mode switch flips `isSignUp` and clears `errors` and `authError`. ToggleTwice proves that two switches restore the mode |
| AuthPage.ToggleTwice | src/pages/AuthPage.tsx:202-206 | toggling twice returns to the same mode with both kinds of error cleared |
| AuthPage.AuthForm.constructor | src/pages/AuthPage.tsx:16-22 | the form starts in sign-in mode with empty fields, no errors, not loading and no auth error |
| AuthPage.AuthForm.SetEmail | src/pages/AuthPage.tsx:160 | typing an email changes only the email |
| AuthPage.AuthForm.SetFullName | src/pages/AuthPage.tsx:141 | typing a name changes only the name |
| AuthPage.AuthForm.SetPassword | src/pages/AuthPage.tsx:178 | typing a password changes only the password |
| AuthPage.AuthForm.Validate | src/pages/AuthPage.tsx:33-58 | `validate` stores `ValidationErrors` of the current fields, returns true exactly when it is empty, and changes nothing else |
| AuthPage.AuthForm.HandleSubmit | src/pages/AuthPage.tsx:60-87 | the call made, the navigation and the new state are those of `Submit` on the old state |
| AuthPage.AuthForm.ToggleMode | src/pages/AuthPage.tsx:202-206 | the switch flips `isSignUp` and clears `errors` and `authError` |
| ThemeToggle.SavedLightWins | src/components/ThemeToggle.tsx:13-15 | a saved "light" gives `isDark = false` and removes `dark`, whatever the system prefers |
| ThemeToggle.DarkWhenSavedOrPreferred | src/components/ThemeToggle.tsx:16-18 | with no saved "light", a saved "dark" or a dark system preference gives `isDark = true` and adds `dark` |
| ThemeToggle.OtherwiseUnchanged | src/components/ThemeToggle.tsx:6-19 | otherwise the mount effect changes nothing: `isDark` keeps its initial value and the class set is untouched |
| ThemeToggle.ResolveInitial | src/components/ThemeToggle.tsx:8-20 | the mount effect's choice between a saved "light", a saved "dark", a dark system preference and no change. Its properties are carried by SavedLightWins, DarkWhenSavedOrPreferred, OtherwiseUnchanged and ResolvedInSync |
| ThemeToggle.ResolvedInSync | src/components/ThemeToggle.tsx:8-20 | after the mount effect, the switch and the `dark` class agree exactly when one of the two branches ran or they already agreed |
| ThemeToggle.Toggle | src/components/ThemeToggle.tsx:22-33 | the toggle negates `isDark` and writes the class set and the stored theme to match. Its properties are carried by ToggleSyncs and ToggleTwice |
| ThemeToggle.ToggleSyncs | src/components/ThemeToggle.tsx:22-33 | a toggle negates `isDark`. `dark` is then present exactly when the new `isDark` is true, and the stored theme is "dark" or "light" to match. No other class and no other storage key changes |
| ThemeToggle.ToggleTwice | src/components/ThemeToggle.tsx:22-33 | two toggles restore `isDark`. From an agreeing state they restore the whole class set |
| ThemeToggle.ThemeSwitch.constructor | src/components/ThemeToggle.tsx:6 | the switch starts dark |
| ThemeToggle.ThemeSwitch.ApplySavedTheme | src/components/ThemeToggle.tsx:8-20 | the mount effect updates `isDark` and the root's classes as `ResolveInitial` says |
| ThemeToggle.ThemeSwitch.ToggleTheme | src/components/ThemeToggle.tsx:22-33 | the toggle updates `isDark`, the classes and local storage as `Toggle` says, leaving them in agreement |

## Findings

| source | as written | input that shows it | evidently intended | confidence | as-written member | corrected member |
|---|---|---|---|---|---|---|
| src/pages/CategoryPage.tsx:167 | `!categoryLabels[category]` looks the name up on a plain object literal. That lookup also finds members inherited from `Object.prototype`, and their values are truthy | the route parameter `constructor` (also `toString`, `valueOf`, `hasOwnProperty`, ...) renders a category page instead of "Category not found" | only cloud, devops and linux are categories | high; not executed | CategoryPage.InheritedNameIsFoundAsWritten | CategoryPage.IsKnownCategory |

## Left out

- Rendering: JSX, CSS classes and icons. `Navbar`, `Footer`, `AboutPage`, `AdminPage` and `MaterialCard` are static UI and are not part of this model.
- Data loading: `fetchMaterials`, the `materials` list, the listing's `loading` flag and the per-category counts on the landing page. These are Supabase reads with no logic beyond storing the answer.
- Supabase storage upload, `getPublicUrl` and the insert are collaborators. Their answers are parameters (`BackendResult`, `publicUrl`) and their calls are returned as values. The error objects' contents and the console logging are not modelled.
- The schema library's email syntax check is the parameter `isEmail`. Only the messages and the key bookkeeping around it are modelled.
- Timing: the timer delays (50, 100 and 2000 ms) and the unused `pauseTime` are left out. Each timer firing is an event. The model lets a late deferred `setIsDeleting(true)` fire in any state, which covers every interleaving the real timers allow.
- Asynchrony: `handleUpload` and `handleSubmit` run to completion in one step. The intermediate `uploading = true` and `loading = true` are set and cleared inside the method, so the disabled submit button seen while a request is pending is not modelled.
- The sign-in page's redirect when a user is already signed in (src/pages/AuthPage.tsx:27-31) is routing, not form logic, and is left out.
- CategoryPage.View: renders the page with the corrected category check. For the inherited object member names of the finding below, the code as written renders a page and `View` gives "Category not found"; `CategoryFoundAsWritten` models the check as written.
- `formatFileSize`'s kilobyte and megabyte arithmetic and `toFixed`, and `formatDate`'s locale formatting, are floating-point and locale formatting. Only the "Unknown size" branch is modelled; otherwise the label carries the raw byte count.
- AuthPage.ValidationErrors: counts password length in characters, not the UTF-16 code units JavaScript counts. A password containing characters outside the Basic Multilingual Plane can be 6 code units long but fewer characters.
- Strings.DecimalDigits: models `String(n)` for whole numbers only. JavaScript switches to exponent notation from 10^21, far beyond any `Date.now()` value.
- Typewriter.PhraseIndex: `loopNum` is an unbounded natural number. The JavaScript number loses precision only after 2^53 phrases.
