# PuenteCultural lesson-guide workspace, in Dafny

This project models the client-side logic of the PuenteCultural "Generador de Fichas
Inclusivas" page (`frontend/src/App.jsx`). A teacher fills in a topic (`tema`), a subject
(`materia`) and a student profile (`perfil_alumnos`), then asks the backend for a lesson guide.
The page keeps the following state:

- a light/dark theme, read at start-up from local storage or the system preference;
- the draft form;
- a loading flag, with a cycling "thinking" phrase;
- the generated guide (`resultado`) or an error message;
- the last payload sent;
- a ledger of the five most recent successful payloads.

A download button saves the guide as `Ficha_PuenteCultural_<topic>.md`.

The model is split by concern:

- `text.dfy`: JavaScript string operations: `trim()`, `length` counted in UTF-16 code units, and
  `replace(/\s+/g, '_')`. Each comes with the lemmas that pin it down: trimming removes exactly
  the surrounding whitespace and is idempotent; the slug replaces each whitespace run with one
  `_`; it splits over a concatenation whose two parts do not meet inside one whitespace run;
  and it keeps whitespace-free words.
- `form.dfy`: the draft, `updateField`, `canSubmit`, and the payload built at submit time.
- `theme.dfy`: the initial theme and the toggle.
- `history.dfy`: the bounded, newest-first ledger. After any series of successes it holds the
  newest five payloads.
- `progress.dfy`: the six thinking phrases and the step index, which advances modulo six.
- `failure.dfy`: the message derived from a rejected generation call.
- `presenter.dfy`: the download file name and its shape.
- `app.dfy`: the class `Workspace`. Its fields are the component's state, and its methods are the
  event handlers. `onGenerate` is split into:
  - `StartGenerate`: the synchronous part;
  - `Tick`: one firing of the interval;
  - `Succeed` or `Fail`: how the awaited call settles, with the `finally` clean-up folded into both.

  The invariant `Valid` holds after every event. It says:
  - the theme is valid and stored;
  - a call is in flight exactly while loading, and only then does the interval run;
  - no result or error is shown while loading;
  - a result and an error are never shown together;
  - the ledger has at most five entries, each one sendable;
  - the ledger's newest entry is the last payload.

The generation call itself is not modelled. Its outcome is the argument of `Succeed` (the
`data.resultado` text) or of `Fail` (the thrown value). The stored theme and the media query
are the constructor's arguments. Local storage writes are modelled by the `storedTheme` field.

Whitespace is the concrete ECMAScript set (WhiteSpace and LineTerminator, the characters that
both `trim()` and `\s` use), not an abstract predicate. A Dafny `char` is a Unicode scalar
value, so the `length >= 3` and `length >= 5` checks are stated with `Utf16Length`, where a
character outside the Basic Multilingual Plane counts as two.

## Model

| member | source | states |
|---|---|---|
| Text.Trim | frontend/src/App.jsx:60 | `s.trim()`: defined as dropping the leading, then the trailing, whitespace run; what it yields is stated by TrimShape, TrimUnique and TrimIdempotent |
| Text.TrimShape | frontend/src/App.jsx:60 | `trim()` yields an infix of its input with only whitespace before and after it, and neither end of the result is whitespace |
| Text.TrimUnique | frontend/src/App.jsx:98-100 | a string with no whitespace at either end, padded by any whitespace on both sides, trims back to exactly itself |
| Text.TrimmedIsFixed | frontend/src/App.jsx:60 | a string with no whitespace at either end is unchanged by `trim()` |
| Text.TrimIdempotent | frontend/src/App.jsx:60 | trimming twice equals trimming once |
| Text.Utf16Length | frontend/src/App.jsx:60 | the UTF-16 `length` lies between the number of characters and twice that |
| Text.Utf16LengthConcat | frontend/src/App.jsx:60 | the UTF-16 length of a concatenation is the sum of the lengths |
| Text.Utf16LengthTrim | frontend/src/App.jsx:60 | trimming never increases the UTF-16 length |
| Text.Slug | frontend/src/App.jsx:78 | `replace(/\s+/g, '_')`: defined by scanning left to right, turning each maximal whitespace run into one `_`; its meaning is stated by SlugShape, SlugWord, SlugRun and SlugConcat |
| Text.SlugShape | frontend/src/App.jsx:78 | `replace(/\s+/g, '_')` leaves no whitespace and never lengthens the string |
| Text.SlugWord | frontend/src/App.jsx:78 | a string without whitespace is left unchanged by the replacement |
| Text.SlugRun | frontend/src/App.jsx:78 | a non-empty run made only of whitespace becomes a single `_` |
| Text.SlugConcat | frontend/src/App.jsx:78 | when the join point is not inside a whitespace run, the replacement of a concatenation is the concatenation of the replacements |
| Form.QuickTopics | frontend/src/App.jsx:12-16 | the three one-click topics, in the page's order |
| Form.QuickProfiles | frontend/src/App.jsx:18-22 | the three one-click student profiles, in the page's order |
| Form.InitialDraft | frontend/src/App.jsx:42-46 | the mounted draft: the first quick topic, the subject "Historia", the first quick profile |
| Form.CanSubmit | frontend/src/App.jsx:59-62 | `canSubmit`: the trimmed topic has at least 3 and the trimmed profile at least 5 UTF-16 code units; its consequences are stated by ShortFieldsCannotSubmit, PaddingIsIgnored and TrimmedDraftCanSubmit |
| Form.UpdateField | frontend/src/App.jsx:64-66 | the updated draft has `value` at `key` and every other field as before |
| Form.UpdateFieldTwice | frontend/src/App.jsx:64-66 | updating one field twice keeps only the second value |
| Form.UpdateFieldSame | frontend/src/App.jsx:64-66 | writing back a field's current value leaves the draft unchanged |
| Form.UpdateFieldCommutes | frontend/src/App.jsx:64-66 | updates of two different fields commute |
| Form.ShortFieldsCannotSubmit | frontend/src/App.jsx:59-62 | a topic shorter than 3 or a profile shorter than 5 code units, even before trimming, never enables submission |
| Form.PaddingIsIgnored | frontend/src/App.jsx:59-62 | adding whitespace around the topic and the profile never changes whether the draft can be submitted |
| Form.TrimmedDraftCanSubmit | frontend/src/App.jsx:59-62 | a draft whose topic and profile have no surrounding whitespace and are at least 3 and 5 characters long can be submitted |
| Form.BuildPayload | frontend/src/App.jsx:97-101 | the payload keeps the subject, and its topic and profile have no whitespace at either end |
| Form.PayloadStripsPadding | frontend/src/App.jsx:97-101 | whatever whitespace surrounds the topic and the profile, the payload is the draft with exactly that whitespace removed |
| Form.PayloadNoLonger | frontend/src/App.jsx:97-101 | the payload's topic and profile are no longer, in code units, than the draft's |
| Form.PayloadOfSubmittable | frontend/src/App.jsx:97-101 | a submittable draft yields a valid payload, and building a payload again from it changes nothing |
| Form.PayloadCanSubmit | frontend/src/App.jsx:59-62 | a valid payload put back into the form passes `canSubmit` |
| Form.InitialTemaTrimmed | frontend/src/App.jsx:13 | the first quick topic text has no whitespace at either end and has at least 3 characters |
| Form.InitialPerfilTrimmed | frontend/src/App.jsx:19 | the first quick profile text has no whitespace at either end and has at least 5 characters |
| Form.InitialDraftCanSubmit | frontend/src/App.jsx:42-46 | the draft the page opens with can be submitted at once |
| Theme.InitialTheme | frontend/src/App.jsx:35-41 | the initial theme is always dark or light; a stored `'dark'` or `'light'` is used as it is; otherwise it is dark exactly when the system prefers dark |
| Theme.Toggle | frontend/src/App.jsx:68-70 | the toggle always gives dark or light, and gives light exactly when the current theme is dark |
| Theme.ToggleFlips | frontend/src/App.jsx:68-70 | toggling a valid theme changes it, and toggling twice restores it |
| Theme.ReloadRestoresTheme | frontend/src/App.jsx:35-41 | a stored valid theme is the one chosen at the next start-up, whatever the system preference |
| History.Push | frontend/src/App.jsx:107 | the new ledger has at most 5 entries, one more than before until it is full; its head is the payload and its tail is a prefix of the old ledger |
| History.PushIsTake | frontend/src/App.jsx:107 | each push is a prepend followed by `slice(0, 5)` |
| History.PushAllKeepsNewest | frontend/src/App.jsx:107 | after any series of successes, the ledger is the newest five payloads, newest first, followed by the older entries in their order |
| History.SixSuccesses | frontend/src/App.jsx:107 | after six successes from an empty ledger, it holds the last five payloads, newest first |
| History.NoDeduplication | frontend/src/App.jsx:107 | for every ledger, full or not, the same payload pushed twice is stored twice at the head, and the length grows by two up to the cap of 5 |
| Progress.ThinkingSteps | frontend/src/App.jsx:25-32 | the six progress phrases, verbatim and in order |
| Progress.NextStep | frontend/src/App.jsx:93 | the next index is always below 6; it is one more than the current index, or 0 after the last phrase |
| Progress.StepAfterTicks | frontend/src/App.jsx:90-95 | after `k` ticks from the first phrase, the indicator shows phrase `k mod 6` |
| Failure.ErrorMessage | frontend/src/App.jsx:109 | an `Error` gives its own message verbatim, and any other thrown value gives the fixed fallback sentence |
| Failure.ErrorBoxShown | frontend/src/App.jsx:228-232 | the error box is shown after a failure unless the thrown value was an `Error` with an empty message |
| Presenter.FileName | frontend/src/App.jsx:78 | the template `Ficha_PuenteCultural_${slug}.md`; its shape is stated by FileNameShape and FileNameExample |
| Presenter.FileNameShape | frontend/src/App.jsx:78 | the download name starts with `Ficha_PuenteCultural_`, ends with `.md` and contains no whitespace |
| Presenter.SlugWordSpace | frontend/src/App.jsx:78 | a word followed by a single space and more text keeps the word and turns the space into `_` |
| Presenter.FileNameExample | frontend/src/App.jsx:78 | the second quick topic, "La Generación del 27", gives `Ficha_PuenteCultural_La_Generación_del_27.md` |
| App.Workspace.Valid | frontend/src/App.jsx:47-115 | the invariant every handler keeps: the theme is dark or light and is the stored one; a call is in flight exactly while loading and only then does the interval run; while loading the current phrase is shown and there is no result or error; never both a result and an error; the ledger has at most 5 sendable payloads and its head is the last payload |
| App.Workspace.SubmitDisabled | frontend/src/App.jsx:215 | the button's `disabled={!canSubmit \|\| loading}`; `StartGenerate` requires its negation |
| App.Workspace.constructor | frontend/src/App.jsx:35-52 | the page mounts with the initial theme and the initial draft; it is not loading, shows no step, result or error, and has no last payload and an empty ledger; the invariant holds |
| App.Workspace.UpdateField | frontend/src/App.jsx:64-66 | one draft field is replaced and every other part of the state is unchanged |
| App.Workspace.ToggleTheme | frontend/src/App.jsx:68-70 | the theme flips, the new theme is written to storage, and nothing else changes |
| App.Workspace.StartGenerate | frontend/src/App.jsx:84-101 | reachable only when the submit button is enabled; it starts loading and clears the error and result; the step is reset to the first phrase and the interval starts; the payload in flight is the trimmed draft; the ledger, the theme and the draft are unchanged |
| App.Workspace.Tick | frontend/src/App.jsx:92-95 | while the interval runs, the index advances modulo 6 and the phrase follows it; after it is cleared, nothing changes |
| App.Workspace.Succeed | frontend/src/App.jsx:103-114 | the result is the returned text and the error stays empty; the last payload is the one in flight, pushed onto the ledger; loading ends and the interval stops |
| App.Workspace.Fail | frontend/src/App.jsx:108-114 | the error is the derived message and the result stays empty; the ledger and the last payload are unchanged; loading ends and the interval stops |
| App.Workspace.Download | frontend/src/App.jsx:73-82 | no file when there is no result; otherwise a `text/markdown` file holding the result, named after the current, untrimmed topic |
| App.RetryAfterTimeout | frontend/src/App.jsx:84-115 | a failed call followed by a successful retry: the first error is the rejection's message, the second start clears it, the retry's text is then shown, and the ledger holds only the successful payload |

## Left out

- The rendered page (JSX, `ReactMarkdown`, the CSS classes) is not modelled. Of the rendering, only the submit button's `disabled` condition survives, as the precondition of `StartGenerate`, and the error box's condition, as `Failure.ErrorBoxShown`.
- Browser APIs are not modelled: `Blob`, `URL.createObjectURL`, the anchor click, `navigator.clipboard.writeText`, and the `dark` class put on the document. `App.Workspace.Download` returns the file it would create.
- `localStorage.getItem` and `matchMedia` are not modelled. Their values are the constructor's arguments, and `localStorage.setItem` is modelled by the field `storedTheme`.
- `setInterval`/`clearInterval` timing is not modelled. Each firing is a `Tick`, and the 3.5 second period is not represented.
- The network call `generateGuide` (`./api/client`) is not part of this model. Its outcome is a parameter of `Succeed` and `Fail`.
- Races between settling calls are not modelled. A second call cannot start while one is in flight, because the button is then disabled.
- App.Workspace.Succeed: `data.resultado` is taken to be a string. A response without that field (`undefined`) is not modelled.
- App.Workspace.UpdateField: the key is one of the three draft fields, the only keys the page passes. Arbitrary keys that would add a property are not modelled.
- The backend (`backend/app/api/routes.py`, `backend/app/agents/tools.py`: HTTP handler, LLM crew, MongoDB and vector search) is not part of this model. It is I/O around code that is not visible.
- The history list's rendering (topic and subject of each entry) is not modelled; it is presentation only.
- A JavaScript string may hold an unpaired surrogate code unit; a Dafny `string` is a sequence of Unicode scalar values and cannot, so `trim()`, `length` and `replace` are not modelled on such strings.
