# Password generator core, modelled in Dafny

The application is a desktop password generator with a smartphone-styled
window. Behind the widgets sits a small pure core:

- the **strength scorer** (`calculate_strength`): five independent rules,
  each worth 20 points, summed and capped at 100;
- the **alphabet composer** (first half of `generate_password`): the
  Letters, Mixed, Digits, Symbols and Custom checkboxes and the custom-text
  field select character ranges that are concatenated in a fixed order,
  without de-duplication, falling back to the lower-case letters when
  nothing is selected;
- the **sampler**: `length` characters, each picked from the alphabet by
  `random.choice`, where the length comes from a slider ranging over 4..32;
- the **session**: every generation shows the new password and appends it to
  the in-memory history; Clear History empties the history.

The project has five modules, one per concept:

| file | module | contents |
|---|---|---|
| `chars.dfy` | `CharClasses` | the ASCII ranges of Python's `string` module, the symbol set, character tests, `any` |
| `strength.dfy` | `Strength` | the five rules, their evaluation, the capped score, scoring lemmas |
| `alphabet.dfy` | `Alphabet` | the slider range, `Options`, the composer and its membership/layout lemmas |
| `sampler.dfy` | `Sampler` | sampling from explicit random draws, as a function and as a loop |
| `session.dfy` | `Sessions` | history and display, Generate, Clear History, runs of generations |

Modelling choices:

- Python's `str.isdigit`, `str.isupper` and `str.islower` are modelled on
  ASCII only: a digit is `'0'..'9'`, an upper-case letter `'A'..'Z'`, a
  lower-case letter `'a'..'z'`. Every other character fails all three tests.
- `random.choice` is modelled by a sequence of draws supplied by the caller,
  one index per character. Each draw must be a valid index into the alphabet,
  which is what `random.choice` promises. Nothing is said about the
  distribution of the draws.
- The slider value is the subset type `SliderValue` (4..32), so an `Options`
  value always carries a length the slider can produce.
- A session is a record of the history and the displayed password. The
  clipboard copy, the status-bar text and the toast are reduced to a `Status`
  tag that records which branch of main.py:324-338 was taken.

## Model

| member | source | states |
|---|---|---|
| CharClasses.Any | main.py:295-300 | the scan used by every character rule returns true exactly when some character of the string passes the test |
| CharClasses.LowercaseRange | main.py:308 | a character is in `ascii_lowercase` exactly when it lies in `'a'..'z'` |
| CharClasses.UppercaseRange | main.py:308 | a character is in `ascii_uppercase` exactly when it lies in `'A'..'Z'` |
| CharClasses.DigitRange | main.py:312 | a character is in `string.digits` exactly when it lies in `'0'..'9'` |
| CharClasses.SymbolsAreNotAlphanumeric | main.py:299 | no character of the symbol set is a letter or a digit |
| Strength.Total | main.py:289-300 | the uncapped sum is 20 points per satisfied rule |
| Strength.EvaluateRules | main.py:290-300 | each rule holds iff its condition holds: length at least 8, length at least 12, some digit, some upper-case and some lower-case character, some character of the symbol set |
| Strength.CalculateStrength | main.py:288-301 | the score is at most 100 and a multiple of 20, and equals the uncapped sum of the awards, so the cap at 100 never changes the result |
| Strength.LengthContribution | main.py:290-294 | the length awards are cumulative: 0 below 8, 20 for 8..11, 40 from 12 on |
| Strength.SingleCaseEarnsNoCaseAward | main.py:297-298 | a password lacking upper-case letters, or lacking lower-case ones, gets nothing from the mixed-case rule and scores at most 80 |
| Strength.AllLowercaseEarnsOnlyLength | main.py:288-301 | a password of lower-case letters only scores exactly its length awards |
| Strength.TotalMonotone | main.py:289-300 | satisfying more rules never lowers the total |
| Strength.ExtensionNeverWeakens | main.py:288-301 | appending characters keeps every satisfied rule satisfied and never lowers the score |
| Strength.ScenarioSingleLetter | main.py:288-301 | "a" scores 0 |
| Strength.ScenarioEightLowercase | main.py:288-301 | "abcdefgh" scores 20 |
| Strength.ScenarioTenMixed | main.py:288-301 | "Abcdefgh1!" scores 80 |
| Strength.ScenarioFourteenMixed | main.py:288-301 | "Abcdefghijkl1!" scores 100 |
| Alphabet.GeneratedPart | main.py:306-314 | the checkbox-selected ranges have 26/26/10/27 characters each and come in the order lower-case, upper-case, digits, symbols |
| Alphabet.ComposeAlphabet | main.py:305-320 | the alphabet is never empty; with nothing selected it is exactly the lower-case letters; otherwise its length is the sum of the selected parts, custom text included, so nothing is de-duplicated |
| Alphabet.AlphabetMembership | main.py:306-320 | a character is in the alphabet iff the options admit it: lower-case with Letters or the fallback, upper-case with Letters and Mixed, digits with Digits, symbols with Symbols, or any character of the custom text with Custom |
| Alphabet.GeneratedMembership | main.py:306-314 | a character is in the checkbox-selected ranges iff it is lower-case with Letters, upper-case with Letters and Mixed, a digit with Digits, or a symbol with Symbols |
| Alphabet.AlphabetLayout | main.py:306-318 | with Custom checked the custom text ends the alphabet verbatim; when something is selected, everything before it is exactly the selected ranges, running lower-case, upper-case, digits, symbols in that order |
| Alphabet.MixedWithoutLettersAddsNothing | main.py:306-310 | with Letters clear, checking Mixed does not change the alphabet |
| Alphabet.EmptyCustomAddsNothing | main.py:315-318 | checking Custom with empty text does not change the alphabet |
| Alphabet.UppercaseNeedsLettersAndMixed | main.py:306-310 | the alphabet holds an upper-case letter iff Letters and Mixed are both checked or the checked custom text holds one |
| Alphabet.DefaultAlphabet | main.py:306-314 | with the start-up checkboxes (all but Custom) the alphabet is lower-case, upper-case, digits, symbols: 89 characters |
| Sampler.Sample | main.py:321 | the password has one character per draw, each a member of the alphabet |
| Sampler.SamplePassword | main.py:321 | the character-by-character join yields exactly `length` characters, character k being the one draw k selects |
| Sampler.EveryStringIsReachable | main.py:321 | every string over the alphabet is produced by some valid draws: the sampler restricts nothing beyond length and membership |
| Sampler.ScenarioAbc | main.py:321 | five draws from "abc" give a five-character string over a, b and c |
| Sessions.PasswordFor | main.py:304-321 | the password of a request has the slider's length and only characters of the composed alphabet |
| Sessions.Record | main.py:342 | recording shows the password and appends exactly it to the history, keeping earlier entries |
| Sessions.GeneratePassword | main.py:303-342 | one generation yields a password of slider length (4..32) over the alphabet, takes the copied branch, sets the strength bar to the password's score, shows it and appends exactly it to the history |
| Sessions.Startup | main.py:64-229 | the window starts from an empty history and its constructor's one generation, so the history holds exactly that password and the display shows it |
| Sessions.ClearHistory | main.py:367-368 | the history becomes empty whatever its length; the displayed password is untouched |
| Sessions.Replay | main.py:342 | N generations add N entries and keep the earlier ones |
| Sessions.RecordAllAppends | main.py:342 | recording a run of passwords appends them in order and displays the last |
| Sessions.ReplayRecordsPasswords | main.py:342 | a run of generations records exactly the run's passwords |
| Sessions.ReplayAppendsInOrder | main.py:342 | after N generations the history is the old history followed by the N passwords in call order, and the last is displayed |
| Sessions.ReplayEntry | main.py:342 | entry k of the new part of the history is the password of the k-th generation |
| Sessions.PasswordsAt | main.py:321 | the k-th password of a run is the password of the k-th request |
| Sessions.ClearAfterReplay | main.py:367-368 | clearing after any number of generations leaves an empty history and the same display |

## Left out

- Window, widgets, layout, style sheets and the show/hide password toggle (main.py:39-228, 252-286, 372-478): UI with no logic to state. The history initialisation (main.py:65) and the start-up generation (main.py:229) are modelled by `Sessions.Start` and `Sessions.Startup`.
- System tray, close-to-tray, the global hotkey and its cross-thread signal relay (main.py:37, 68, 217, 231-269): toolkit and OS bindings.
- The Windows startup registry entry (main.py:480-499), toast notifications (main.py:328-336) and clipboard writes (main.py:325, 344-350): foreign side effects. Only the branch taken is kept, as `Status`.
- `show_history` (main.py:352-365) only lists the history in a dialog; the dialog's list widget cleared by `clear_history` (main.py:369-370) is UI.
- The distribution of `random.choice`: draws are caller-supplied indices, and uniformity is not stated.
- CharClasses.IsDigit, CharClasses.IsUpper, CharClasses.IsLower: ASCII only, whereas Python's tests also accept non-ASCII digits and letters; this matters only for custom text outside ASCII.
- Strength.CalculateStrength: the rule tests inherit the ASCII-only character classes above, so for non-ASCII input the score can be lower than Python's.
