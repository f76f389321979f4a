# aura-pass password generator — verified Dafny model

aura-pass is a browser extension that generates random passwords. The user
picks a length and any of four character classes: uppercase, lowercase,
digits and symbols. The generator appends the chosen alphabets into a pool
and falls back to lowercase when the pool is empty. It then draws one pool
index per character with `getRandomInt(pool.length - 1)`, which reduces a
secure 32-bit random word modulo `max + 1`.

The generator exists in three copies:

- `utils.js`, the shared utility, which can also strip the look-alike
  characters `l1IO0`;
- the popup (`script.js`), which re-checks the lowercase box when no box is
  checked, rates the password Weak, Medium or Strong, and saves and loads
  its settings;
- the background worker (`background.js`), which generates from the stored
  settings when the context-menu item is clicked.

`utils.js` also estimates a pool size from the classes present in a
password, for its entropy figure, and maps a duration in seconds onto a
ladder of crack-time buckets.

The model has five modules:

- `CharSets`: the alphabets, the character classes, the append step and the
  pool the popup and worker build.
- `Prefs`: the stored preference record, its default resolution and the
  record the popup saves.
- `Utils`: `utils.js` — `getRandomInt`, the look-alike filter, the pool, the
  sampling loop, the pool-size estimate and the crack-time ladder.
- `Script`: `script.js` — the strength score and label, plus class `Popup`,
  whose fields are the popup's controls and its storage entry.
- `Background`: `background.js` — `generatePasswordFromStorage`.

The random source is an input: a sequence of 32-bit words, one per
character drawn. Every generation method is proved against the
specification functions `AvailableChars` / `UnfilteredPool` and `CharAt`.
Character `i` of the password is `CharAt(pool, words[i])`, which lies in the
pool. Lemmas about those functions prove the rest:

- the pool is never empty;
- the pool holds exactly the characters of the selected classes (lowercase
  when none is selected), minus the look-alikes when they are excluded;
- no look-alike survives the filter;
- the full pool is the 88 characters in a fixed order;
- the popup and worker copies agree with the shared utility when the
  filter is off.

The three `getRandomInt` copies are the same text and are modelled once, as
`Utils.GetRandomInt`. The append lines and the draw loop are also identical
in the three copies. They are modelled once each, as
`CharSets.AppendSelected` and `Utils.DrawPassword`, and every copy calls them.

The strength indicator scores the six tests of `script.js:79-85`
(length ≥ 8, length ≥ 16, upper, lower, digit, symbol) and labels the
score with the thresholds ≤ 2 (Weak) and ≤ 4 (Medium).

## Model

| member | source | states |
|---|---|---|
| CharSets.SimilarMembers | aura-pass/utils.js:7 | a character is in the look-alike set exactly when it is one of `l`, `1`, `I`, `O`, `0` |
| CharSets.AlphabetClasses | aura-pass/utils.js:2-6 | each alphabet lies inside the class its regular expression tests (`[A-Z]`, `[a-z]`, `[0-9]`, and `[^a-zA-Z0-9]` for symbols) |
| CharSets.Selected | aura-pass/utils.js:32-35 | the appended alphabets are empty exactly when no class is selected, and hold at most 88 characters |
| CharSets.AppendSelected | aura-pass/utils.js:29-35 | the four conditional appends produce the selected alphabets in the order upper, lower, digits, symbols |
| CharSets.SelectedMembers | aura-pass/utils.js:32-35 | a character is in the appended alphabets exactly when it belongs to a selected class |
| CharSets.LowercaseOnlySelected | aura-pass/script.js:51-54 | the lowercase fallback is exactly what checking only the lowercase box selects |
| CharSets.UnfilteredPool | aura-pass/background.js:32-41 | the popup and worker pool is never empty; it is the selected alphabets, or the lowercase alphabet when none is selected |
| Prefs.ResolveLength | aura-pass/script.js:148 | a missing or zero stored length becomes 16, any other length is kept, and the result is never 0 |
| Prefs.ResolveFlag | aura-pass/background.js:27-30 | a class is off exactly when its stored value is the boolean `false` |
| Prefs.Resolve | aura-pass/background.js:26-30 | the resolved options keep a nonzero stored length, have a nonzero length, and turn a class off only for a stored `false` |
| Prefs.EmptyPrefsDefaults | aura-pass/background.js:23-30 | with nothing stored the options are length 16 with all four classes on |
| Prefs.FalsyFlagStaysOn | aura-pass/script.js:149-152 | a missing, `null`, `0` or empty-string flag still means the class is on |
| Prefs.Saved | aura-pass/script.js:131-137 | the saved record holds the slider length, and each flag is truthy exactly when its checkbox is checked and reads back under `!== false` as the checkbox state |
| Prefs.SaveLoadRoundTrip | aura-pass/script.js:131-152 | loading a saved record gives back the saved settings whenever the length is nonzero (see "## Left out" for a zero length) |
| Utils.GetRandomInt | aura-pass/utils.js:15-19 | for every 32-bit word and `max ≥ 0` the index is in `[0, max]`, and a word not above `max` is returned unchanged |
| Utils.CharAt | aura-pass/utils.js:57-58 | the character drawn for a word is a member of the (non-empty) pool |
| Utils.RemoveSimilar | aura-pass/utils.js:38-43 | the look-alike filter never lengthens the pool |
| Utils.RemoveSimilarMembers | aura-pass/utils.js:38-43 | a character survives the filter exactly when it was present and is no look-alike |
| Utils.RemoveSimilarAppend | aura-pass/utils.js:38-43 | filtering the appended alphabets filters each alphabet separately |
| Utils.FilteredLowercase | aura-pass/utils.js:48-51 | the filtered lowercase fallback is the alphabet without `l`, 25 characters |
| Utils.FilteredUppercase | aura-pass/utils.js:38-43 | the filtered uppercase alphabet lacks exactly `I` and `O` |
| Utils.FilteredNumbers | aura-pass/utils.js:38-43 | the filtered digits are `2` to `9` |
| Utils.SelectedKeepsOne | aura-pass/utils.js:32-43 | with any class selected, the filter leaves at least one character |
| Utils.AvailableChars | aura-pass/utils.js:29-53 | for every combination of the five flags the pool is non-empty and at most 88 characters |
| Utils.PoolExcludesSimilar | aura-pass/utils.js:38-53 | with `excludeSimilar` on, no character of `l1IO0` is in the pool, fallback included |
| Utils.PoolMembers | aura-pass/utils.js:29-53 | a character is in the pool exactly when it belongs to a selected class (to the lowercase alphabet when none is selected) and, under `excludeSimilar`, is no look-alike |
| Utils.FullPool | aura-pass/utils.js:32-35 | all four classes without the filter give upper ++ lower ++ digits ++ symbols, 88 characters |
| Utils.FullPoolWithoutSimilar | aura-pass/utils.js:32-43 | all four classes with the filter give the 83-character pool, in the same order |
| Utils.NoClassPool | aura-pass/utils.js:46-53 | with no class selected the pool is the 26 lowercase letters, or the 25 without `l` under the filter |
| Utils.BuildAvailableChars | aura-pass/utils.js:29-53 | the append, filter and fallback statements compute exactly `AvailableChars` |
| Utils.DrawPassword | aura-pass/utils.js:55-59 | the loop yields `length` characters (none for `length ≤ 0`), character `i` being the pool character at word `i`'s index |
| Utils.GeneratePasswordLogic | aura-pass/utils.js:26-62 | the password has exactly `length` characters (empty for `length ≤ 0`), each drawn from the pool, and none a look-alike when `excludeSimilar` is on |
| Utils.EntropyPoolSize | aura-pass/utils.js:70-79 | the estimate is 0 exactly for the empty string and otherwise lies in [10, 94] |
| Utils.EstimateWithinSelection | aura-pass/utils.js:73-77 | for a password drawn from the pool, the estimate never exceeds the summed weight of the selected classes |
| Utils.PoolCharClass | aura-pass/utils.js:73-77 | a pool character's class is always one the options select (lowercase also under the fallback) |
| Utils.CrackTimeBucket | aura-pass/utils.js:94-102 | `Instant` exactly below 1 s, `Less than a minute` exactly in [1, 60) s, `Centuries` exactly from 3153600000 s on |
| Utils.CrackTimeInterval | aura-pass/utils.js:94-102 | the k-th bucket is chosen exactly when the duration reaches the k-th bound and stays strictly below the next |
| Utils.CrackTimeMonotone | aura-pass/utils.js:94-102 | a longer duration never lands in an earlier bucket |
| Script.SymbolTestIsSymbolSet | aura-pass/script.js:85 | the symbol test's character class is exactly the 26-character symbol alphabet |
| Script.StrengthScore | aura-pass/script.js:79-85 | the score lies in [0, 6], is at most 4 below length 8, and is 0 for the empty password |
| Script.StrengthLabel | aura-pass/script.js:90-102 | the label is Weak exactly for score ≤ 2, Medium exactly for 3–4, Strong exactly for ≥ 5 |
| Script.LabelMonotone | aura-pass/script.js:90-102 | a higher score never gets a weaker label |
| Script.ShortNeverStrong | aura-pass/script.js:80-94 | a password shorter than 8 characters is never labelled Strong |
| Script.ScoreMonotoneInLength | aura-pass/script.js:80-81 | with the same classes present, a longer password never scores or labels lower |
| Script.LowercaseOnlyNeverStrong | aura-pass/script.js:79-102 | a password of lowercase letters only scores at most 3 and is never Strong |
| Script.Popup.constructor | aura-pass/script.js:3-13 | the controls start with the given slider, checkbox and storage values and empty text |
| Script.Popup.UpdateStrengthIndicator | aura-pass/script.js:78-103 | the strength text becomes the label of the password's score, and nothing else changes |
| Script.Popup.SavePreferences | aura-pass/script.js:130-139 | the storage entry becomes the saved record of the current slider and checkboxes |
| Script.Popup.BuildPoolAndRecheck | aura-pass/script.js:39-54 | the pool is the one built from the old checkboxes, equals the alphabets of the new checkboxes, and is lowercase exactly with the lowercase box newly checked when no box was checked |
| Script.Popup.ShowPassword | aura-pass/script.js:62-67 | the display holds the password, the strength text is the label of its score, and the storage entry holds the saved settings; nothing else changes |
| Script.Popup.GeneratePassword | aura-pass/script.js:37-73 | the slider and the other checkboxes are unchanged; lowercase becomes checked only when no box was; the password has the slider length, with character `i` drawn by word `i` from the pool of the old checkboxes; that pool equals the alphabets of the new checkboxes; the strength text labels the password and is never Strong for the fallback; the settings are saved |
| Script.Popup.LoadPreferences | aura-pass/script.js:144-160 | with a stored record, the slider and checkboxes take its resolved values (otherwise they stay); the generated password and strength text follow from those settings, and the storage entry ends up holding them |
| Background.PoolMatchesUtils | aura-pass/background.js:32-41 | for the same four flags, the worker's pool equals the one `generatePasswordLogic` builds with `excludeSimilar` off |
| Background.GeneratePasswordFromStorage | aura-pass/background.js:20-51 | the password has the resolved length; character `i` is drawn by word `i` from the pool of the resolved flags, which is the pool `generatePasswordLogic` would draw from |
| Background.NothingStoredDefaults | aura-pass/background.js:23-41 | with nothing stored the worker draws 16 characters from the full 88-character pool |

## Left out

- `content.js` is not part of this model. It remembers the right-clicked element; on an `inject-password` message it assigns the password only when that element has a `value`, then dispatches a bubbling `input` event so page frameworks see the change.
- Browser APIs are not modelled: storage reads and writes, context-menu registration and clicks, and tab messaging. The worker's storage result is a parameter. The popup's storage entry is a field.
- The Promise and async wrapper of `generatePasswordFromStorage` is not modelled. Only the computation inside the storage callback is.
- `crypto.getRandomValues` is replaced by the input sequence of 32-bit words.
- Modulo bias and uniformity are not modelled. They are statistical properties.
- Popup DOM work is not modelled: element lookups, CSS class toggling (only the label text is kept), the slider value display, event-listener wiring, and clipboard copy with its timer.
- The `try`/`catch` "Error!" path of `generatePassword` is not modelled. It is taken when the random source, a DOM write of the strength indicator, or the storage write throws.
- `Math.log2`, `Math.pow` and `Math.round` are floating point and are not modelled. Only the integer pool-size estimate and the bucket choice over a real number of seconds are kept, not the numeric crack-time text.
- The regular-expression construction and escaping in `utils.js` is modelled as "remove every character of `l1IO0`".
- JavaScript coercion of the stored length and the slider's `parseInt` are not modelled, because lengths are integers here. The popup stores the slider value as a string, which the model stores as that integer.
- History management is not part of this model: none of the four files of the extension read for it (`utils.js`, `script.js`, `background.js`, `content.js`) implements it.
- Prefs.SaveLoadRoundTrip: excludes a zero length. The popup saves the slider value as a string, and the string `"0"` is truthy, so in the extension every saved record round-trips. The model stores the length as a number, which loses that truthiness, so a saved zero resolves to the default 16.
