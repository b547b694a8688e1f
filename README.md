# Text keyboard and preference registry of fcitx5-android, in Dafny

This project models two small stateful components of the fcitx5 Android
input method and proves properties of them.

**The text keyboard** (`TextKeyboard`) is modelled in four modules:

- `Chars`: the character tests and case mappings the keyboard uses.
  String lengths are counted in UTF-16 code units, as Kotlin counts them.
  White space is Kotlin's full set: Java's white space plus the Unicode separators.
- `KeyboardLayout`: the static key table and the text views built from it.
- `Transforms`: the pure part of the keyboard. It holds:
  - the three-state caps machine (`None`, `Once`, `Lock`) and its two toggles;
  - letter case transforms and punctuation remapping;
  - the rewriting of key actions and popup previews;
  - the space-bar label;
  - the labels the two relabelling walks compute for the text views.
- `Keyboard`: a class `TextKeyboard` with the source's mutable fields:
  - `capsState`, `punctuationMapping`, `curImeName` and `keepLettersUppercase`;
  - the caps icon and the language-key visibility;
  - two arrays holding the main and alternate texts of the text views.

  Each handler method is proved against the functions of `Transforms`.

**The preference registry** (`Prefs`) is modelled in module `Preferences`:

- The platform key-value store is a class with a `map<string, Value>`.
- A `ManagedPreference` reads and writes its own key, either directly or
  through a string codec (the string-like variant). It also keeps a set of
  change listeners.
- `Prefs` keeps the registry from keys to preferences. It refuses a key that
  is declared twice, and forwards store changes only for registered keys.
- A `Companion` holds the init-once instance.
- Reads and writes are specified by functions on the store's map. Lemmas
  relate them: get after set, other keys untouched, and the failure cases.

## Model

| member | source | states |
|---|---|---|
| Chars.Uppercase | app/src/main/java/org/fcitx/fcitx5/android/input/keyboard/TextKeyboard.kt:103 | upper-casing keeps the length, leaves no lower-case letter, and changes each character at most in case |
| Chars.Lowercase | app/src/main/java/org/fcitx/fcitx5/android/input/keyboard/TextKeyboard.kt:102 | lower-casing keeps the length, leaves no upper-case letter, and changes each character at most in case |
| Chars.CaseMappingAbsorbs | app/src/main/java/org/fcitx/fcitx5/android/input/keyboard/TextKeyboard.kt:100-105 | each case mapping is idempotent, and of two mappings in a row the later one decides the result |
| Chars.CaseMappingFixedPoints | app/src/main/java/org/fcitx/fcitx5/android/input/keyboard/TextKeyboard.kt:100-105 | a string is its own upper-case form iff it has no lower-case letter, and dually for lower case |
| Chars.Utf16Length | app/src/main/java/org/fcitx/fcitx5/android/input/keyboard/TextKeyboard.kt:127-130 | the length Kotlin reports counts one unit per BMP character and two per other character; it is 1 exactly for one BMP character, and at most 1 exactly for the empty string or one BMP character |
| KeyboardLayout.LayoutShape | app/src/main/java/org/fcitx/fcitx5/android/input/keyboard/TextKeyboard.kt:27-70 | the layout has four rows of 10, 9, 9 and 6 keys |
| KeyboardLayout.TopRowDigits | app/src/main/java/org/fcitx/fcitx5/android/input/keyboard/TextKeyboard.kt:28-39 | the top row is all alphabet keys, and their alternate texts are the digits 1 to 9 and then 0 |
| KeyboardLayout.LettersExactlyOnce | app/src/main/java/org/fcitx/fcitx5/android/input/keyboard/TextKeyboard.kt:27-70 | each Latin letter A to Z is the character of exactly one alphabet key, and every alphabet key's character is one upper-case letter |
| KeyboardLayout.EachLetterOnce | app/src/main/java/org/fcitx/fcitx5/android/input/keyboard/TextKeyboard.kt:27-70 | a distinct string covering A to Z gives one-letter keys in which each letter occurs exactly once |
| KeyboardLayout.AppearanceOf | app/src/main/java/org/fcitx/fcitx5/android/input/keyboard/TextKeyboard.kt:94-96 | a key is drawn with a main and an alternate text iff it is an alphabet key, showing its character, radical and punctuation; it is an image iff it is the caps, backspace, language or return key |
| KeyboardLayout.TextViews | app/src/main/java/org/fcitx/fcitx5/android/input/keyboard/TextKeyboard.kt:94-96 | the text views are no more than the keys, and none of them is an image |
| KeyboardLayout.TextViewsMembers | app/src/main/java/org/fcitx/fcitx5/android/input/keyboard/TextKeyboard.kt:94-96 | a view is among the text views iff it is not an image and is the appearance of one of the keys |
| KeyboardLayout.TextViewsOfTextKeys | app/src/main/java/org/fcitx/fcitx5/android/input/keyboard/TextKeyboard.kt:94-96 | keys that are all drawn by text views give one text view each, in order |
| KeyboardLayout.TextViewsAppend | app/src/main/java/org/fcitx/fcitx5/android/input/keyboard/TextKeyboard.kt:94-96 | the text views of two runs of keys are those of the first run followed by those of the second |
| KeyboardLayout.LayoutTextKeys | app/src/main/java/org/fcitx/fcitx5/android/input/keyboard/TextKeyboard.kt:27-70 | the layout gives 30 text views: 26 letter views, then "?123", ",", the space bar and "." |
| KeyboardLayout.FirstNonAltText | app/src/main/java/org/fcitx/fcitx5/android/input/keyboard/TextKeyboard.kt:215-216 | the index where the alphabet walk returns: every view before it is an `AltText` view, and the view at it is not |
| Transforms.IconFor | app/src/main/java/org/fcitx/fcitx5/android/input/keyboard/TextKeyboard.kt:200-208 | each caps state has its own icon: the icon is the none, once or lock icon exactly when the state is `None`, `Once` or `Lock` |
| Transforms.SwitchCaps | app/src/main/java/org/fcitx/fcitx5/android/input/keyboard/TextKeyboard.kt:188-195 | the lock toggle gives `Lock` iff the state was not `Lock` and gives `None` otherwise; the plain toggle gives `Once` iff the state was `None` and gives `None` otherwise |
| Transforms.ToggleTwiceFromNone | app/src/main/java/org/fcitx/fcitx5/android/input/keyboard/TextKeyboard.kt:188-195 | from `None`, two lock toggles, or two plain toggles, return to `None` |
| Transforms.ToggleLeavesLock | app/src/main/java/org/fcitx/fcitx5/android/input/keyboard/TextKeyboard.kt:188-195 | either toggle takes `Lock` to `None`, and the plain toggle never reaches `Lock` |
| Transforms.TransformAlphabet | app/src/main/java/org/fcitx/fcitx5/android/input/keyboard/TextKeyboard.kt:100-105 | the result has the input's letters, with no upper-case letter when caps is `None` and no lower-case letter in `Once` or `Lock` |
| Transforms.TransformAlphabetIdempotent | app/src/main/java/org/fcitx/fcitx5/android/input/keyboard/TextKeyboard.kt:100-105 | transforming twice under one caps state is transforming once |
| Transforms.TransformPunctuation | app/src/main/java/org/fcitx/fcitx5/android/input/keyboard/TextKeyboard.kt:107-108 | the mapped value when the text is a key of the mapping, the text itself otherwise |
| Transforms.TransformInputString | app/src/main/java/org/fcitx/fcitx5/android/input/keyboard/TextKeyboard.kt:110-114 | text that is not one UTF-16 unit long is returned unchanged; one letter stays one letter, in the case the caps state calls for; any other single BMP character goes through the punctuation mapping |
| Transforms.LettersIgnoreMapping | app/src/main/java/org/fcitx/fcitx5/android/input/keyboard/TextKeyboard.kt:110-114 | the result for a letter does not depend on the punctuation mapping |
| Transforms.TransformKeyAction | app/src/main/java/org/fcitx/fcitx5/android/input/keyboard/TextKeyboard.kt:127-133 | a text longer than one UTF-16 unit leaves the text and the caps state unchanged; otherwise the text is case-transformed, the state after is never `Once`, and `Lock` stays `Lock` |
| Transforms.ShiftAppliesOnce | app/src/main/java/org/fcitx/fcitx5/android/input/keyboard/TextKeyboard.kt:127-133 | after a one-shot shift, the first key press is upper case and the next is lower case |
| Transforms.LockPersists | app/src/main/java/org/fcitx/fcitx5/android/input/keyboard/TextKeyboard.kt:127-133 | under a lock, every key press is upper case and the lock stays |
| Transforms.WideCharacterKeepsShift | app/src/main/java/org/fcitx/fcitx5/android/input/keyboard/TextKeyboard.kt:127-130 | a character outside the BMP is two UTF-16 units long, so pressing it changes neither its text nor the caps state |
| Transforms.SpaceLabel | app/src/main/java/org/fcitx/fcitx5/android/input/keyboard/TextKeyboard.kt:152-155 | the space label starts with the display name, and is nothing more iff the sub-mode label and name are both empty |
| Transforms.SpaceLabelShape | app/src/main/java/org/fcitx/fcitx5/android/input/keyboard/TextKeyboard.kt:152-155 | the space label starts with the display name; it then has " (label)" if the sub-mode label is non-empty, " (name)" if only the sub-mode name is, and nothing iff both are empty |
| Transforms.PreviewContent | app/src/main/java/org/fcitx/fcitx5/android/input/keyboard/TextKeyboard.kt:163-176 | a preview shows the key's label exactly when caps is `None` and the input method is the label one; otherwise it shows the transformed input string |
| Transforms.PopupActionFor | app/src/main/java/org/fcitx/fcitx5/android/input/keyboard/TextKeyboard.kt:161-186 | previews and preview updates keep their view and label and get the preview content; a popup keyboard's label is case-transformed only when it is one UTF-16 unit and a letter; every other action is passed on unchanged |
| Transforms.CapsPreviewIsUpper | app/src/main/java/org/fcitx/fcitx5/android/input/keyboard/TextKeyboard.kt:163-169 | with caps on, a lower-case letter key's preview shows that letter in upper case, whatever the input method |
| Transforms.AlphabetLabel | app/src/main/java/org/fcitx/fcitx5/android/input/keyboard/TextKeyboard.kt:217-224 | an alphabet view shows its display text when labels are shown; otherwise a key code that is not one letter leaves the text as it was, and a letter gives one character with that letter, upper case when letters are kept upper case or caps is on and lower case otherwise |
| Transforms.AlphabetLabels | app/src/main/java/org/fcitx/fcitx5/android/input/keyboard/TextKeyboard.kt:214-226 | the relabelling keeps the number of texts, relabels every view before the first non-`AltText` view, and leaves that view and all later ones as they were |
| Transforms.AlphabetLabelsIdempotent | app/src/main/java/org/fcitx/fcitx5/android/input/keyboard/TextKeyboard.kt:214-226 | relabelling the letter keys twice under the same state is relabelling once |
| Transforms.AlphabetLabelsOfLetters | app/src/main/java/org/fcitx/fcitx5/android/input/keyboard/TextKeyboard.kt:217-224 | a letter key reached by the walk shows its display text when labels are shown; otherwise it shows its letter, upper case if letters are kept upper case or caps is on, and lower case otherwise |
| Transforms.AlphabetLabelsKeep | app/src/main/java/org/fcitx/fcitx5/android/input/keyboard/TextKeyboard.kt:214-226 | views from the first non-`AltText` view on keep their text, and so does a key whose code is not one letter, unless labels are shown |
| Transforms.LayoutRelabelsEveryLetter | app/src/main/java/org/fcitx/fcitx5/android/input/keyboard/TextKeyboard.kt:215-216 | on the layout's views the walk returns at index 26, and a view is `AltText` iff it comes before that index, so every letter key is relabelled |
| Transforms.LayoutViewsWellFormed | app/src/main/java/org/fcitx/fcitx5/android/input/keyboard/TextKeyboard.kt:27-70 | the layout's text views are never images, every plain-text view has a non-empty text, and the 29th view is the space bar |
| Transforms.PunctuationMainLabels | app/src/main/java/org/fcitx/fcitx5/android/input/keyboard/TextKeyboard.kt:233-238 | a plain-text view whose text starts with neither a letter nor white space shows that text through the punctuation mapping; every other view keeps its main text |
| Transforms.PunctuationAltLabels | app/src/main/java/org/fcitx/fcitx5/android/input/keyboard/TextKeyboard.kt:230-232 | every `AltText` view shows its alternate text through the punctuation mapping; every other view keeps its alternate text |
| Transforms.PunctuationLatestMappingWins | app/src/main/java/org/fcitx/fcitx5/android/input/keyboard/TextKeyboard.kt:145-147 | relabelling the punctuation under one mapping and then another is relabelling under the second alone |
| Transforms.PunctuationWithoutMapping | app/src/main/java/org/fcitx/fcitx5/android/input/keyboard/TextKeyboard.kt:228-241 | with an empty mapping, every alternate text is the view's own and every punctuation key shows its own text, while letter and space keys keep theirs |
| Keyboard.TextKeyboard.constructor | app/src/main/java/org/fcitx/fcitx5/android/input/keyboard/TextKeyboard.kt:89-92 | a new keyboard over the layout's views shows each view's own texts, with caps `None`, no mapping, the name "English" and the language key as the preference says |
| Keyboard.TextKeyboard.UpdateLangSwitchKey | app/src/main/java/org/fcitx/fcitx5/android/input/keyboard/TextKeyboard.kt:210-212 | the language key is visible exactly when asked, and nothing else changes |
| Keyboard.TextKeyboard.UpdateCapsButtonIcon | app/src/main/java/org/fcitx/fcitx5/android/input/keyboard/TextKeyboard.kt:200-208 | the caps icon matches the caps state, and nothing else changes |
| Keyboard.TextKeyboard.UpdateAlphabetKeys | app/src/main/java/org/fcitx/fcitx5/android/input/keyboard/TextKeyboard.kt:214-226 | the main texts become the alphabet relabelling of the old ones; the loop returns at the first non-`AltText` view and skips keys that are not one letter |
| Keyboard.TextKeyboard.UpdatePunctuationKeys | app/src/main/java/org/fcitx/fcitx5/android/input/keyboard/TextKeyboard.kt:228-241 | alternate texts become the mapped punctuation; plain-text views not starting with a letter or white space show their mapped text; the rest keep theirs |
| Keyboard.TextKeyboard.SwitchCapsState | app/src/main/java/org/fcitx/fcitx5/android/input/keyboard/TextKeyboard.kt:188-198 | the caps state takes one toggle step, the icon follows it, and the letter keys are relabelled under the new state |
| Keyboard.TextKeyboard.TransformKeyAction | app/src/main/java/org/fcitx/fcitx5/android/input/keyboard/TextKeyboard.kt:127-133 | the action's text and the caps state take one key-press step; a used-up shift relabels the letter keys, and otherwise the labels stay |
| Keyboard.TextKeyboard.OnAction | app/src/main/java/org/fcitx/fcitx5/android/input/keyboard/TextKeyboard.kt:116-125 | key text from the keyboard takes one key-press step, and a used-up shift relabels the letter keys while otherwise the labels stay; key text from a popup and other actions change nothing; a caps action toggles with its lock flag |
| Keyboard.TextKeyboard.OnAttach | app/src/main/java/org/fcitx/fcitx5/android/input/keyboard/TextKeyboard.kt:135-139 | caps is reset to `None`, and the letter keys are relabelled under `None` |
| Keyboard.TextKeyboard.OnPunctuationUpdate | app/src/main/java/org/fcitx/fcitx5/android/input/keyboard/TextKeyboard.kt:145-148 | the mapping is replaced wholesale, and the punctuation is relabelled under the new mapping |
| Keyboard.TextKeyboard.OnInputMethodUpdate | app/src/main/java/org/fcitx/fcitx5/android/input/keyboard/TextKeyboard.kt:151-159 | the space bar shows the space label, the same string becomes the current name, and the letter keys are relabelled under it |
| Keyboard.TextKeyboard.OnPopupAction | app/src/main/java/org/fcitx/fcitx5/android/input/keyboard/TextKeyboard.kt:161-186 | the action passed on is the rewritten popup action for the current state, and nothing changes |
| Keyboard.ShiftShowsCapitals | app/src/main/java/org/fcitx/fcitx5/android/input/keyboard/TextKeyboard.kt:188-198 | once the keyboard is shown, one shift press puts every letter key in upper case |
| Keyboard.ShiftOneLetter | app/src/main/java/org/fcitx/fcitx5/android/input/keyboard/TextKeyboard.kt:127-133 | with a one-shot shift, typing any lower-case letter sends it in upper case, the shift is used up, and the letter keys are relabelled under `None` |
| Preferences.PlainRead | app/src/main/java/me/rocka/fcitx5test/data/Prefs.kt:30 | a plain read gives the stored value if the key is present and the default otherwise; a stored value of another type is a class-cast failure |
| Preferences.PlainWrite | app/src/main/java/me/rocka/fcitx5test/data/Prefs.kt:31-39 | a Boolean, Long, Float, Int or String value is stored under the key; any other value writes nothing; other keys are untouched |
| Preferences.StringLikeRead | app/src/main/java/me/rocka/fcitx5test/data/Prefs.kt:77-81 | an absent key gives the default; the read succeeds iff the stored value is a string the codec decodes, and then gives the decoded value; otherwise it is a decode failure naming the raw value |
| Preferences.StringLikeWrite | app/src/main/java/me/rocka/fcitx5test/data/Prefs.kt:82-85 | the key holds the codec's encoding as a string, and other keys are untouched |
| Preferences.Storable | app/src/main/java/me/rocka/fcitx5test/data/Prefs.kt:31-39 | the setter writes exactly the Boolean, Long, Float, Int and String kinds |
| Preferences.PlainReadAfterWrite | app/src/main/java/me/rocka/fcitx5test/data/Prefs.kt:29-39 | get after set gives back the value if it is storable, and the earlier read otherwise |
| Preferences.PlainWriteFrame | app/src/main/java/me/rocka/fcitx5test/data/Prefs.kt:31-39 | a plain write leaves every read of another key as it was |
| Preferences.StringLikeReadAfterWrite | app/src/main/java/me/rocka/fcitx5test/data/Prefs.kt:76-85 | get after set gives back the value when the codec decodes its own encoding to it, and fails when it cannot decode it at all |
| Preferences.StringLikeWriteFrame | app/src/main/java/me/rocka/fcitx5test/data/Prefs.kt:82-85 | a string-like write leaves every read of another key as it was |
| Preferences.NonStringBreaksStringLike | app/src/main/java/me/rocka/fcitx5test/data/Prefs.kt:77-81 | a non-string value stored under a string-like key makes its read fail with that value |
| Preferences.ManagedPreference.constructor | app/src/main/java/me/rocka/fcitx5test/data/Prefs.kt:23-28 | a new preference has its key, default and codec, its type is its default's, and it has no listeners |
| Preferences.ManagedPreference.Get | app/src/main/java/me/rocka/fcitx5test/data/Prefs.kt:29-30 | the value read is the plain read of the store, or the string-like read for a preference with a codec |
| Preferences.ManagedPreference.Set | app/src/main/java/me/rocka/fcitx5test/data/Prefs.kt:31-39 | the store becomes the plain write of the value, or the string-like write for a preference with a codec |
| Preferences.ManagedPreference.RegisterOnChangeListener | app/src/main/java/me/rocka/fcitx5test/data/Prefs.kt:42-44 | the listener set gains the listener |
| Preferences.ManagedPreference.UnregisterOnChangeListener | app/src/main/java/me/rocka/fcitx5test/data/Prefs.kt:46-48 | the listener set loses the listener |
| Preferences.ManagedPreference.FireChange | app/src/main/java/me/rocka/fcitx5test/data/Prefs.kt:50-52 | every registered listener is called exactly once, and nothing else is called |
| Preferences.RegisterTwice | app/src/main/java/me/rocka/fcitx5test/data/Prefs.kt:42-44 | registering a listener twice leaves it in the set once |
| Preferences.Prefs.constructor | app/src/main/java/me/rocka/fcitx5test/data/Prefs.kt:14-21 | a new registry over the store is empty |
| Preferences.Prefs.Preference | app/src/main/java/me/rocka/fcitx5test/data/Prefs.kt:93-99 | a key already declared is refused with the registry unchanged; otherwise exactly that key is added, mapped to a new plain preference with the default |
| Preferences.Prefs.StringLikePreference | app/src/main/java/me/rocka/fcitx5test/data/Prefs.kt:102-111 | a key already declared is refused with the registry unchanged; otherwise exactly that key is added, mapped to a new string-like preference with the default and the codec |
| Preferences.Prefs.OnSharedPreferenceChanged | app/src/main/java/me/rocka/fcitx5test/data/Prefs.kt:18-21 | a change of an unregistered key calls nobody; a change of a registered key calls exactly its preference's listeners, each once |
| Preferences.Declarations | app/src/main/java/me/rocka/fcitx5test/data/Prefs.kt:113-125 | the seven declarations are over the seven resource keys, in declaration order |
| Preferences.DeclareOne | app/src/main/java/me/rocka/fcitx5test/data/Prefs.kt:93-111 | a declaration without a codec is made plain and one with a codec string-like; a duplicate key is refused with the registry unchanged |
| Preferences.Declare | app/src/main/java/me/rocka/fcitx5test/data/Prefs.kt:113-125 | declaring in order succeeds iff the keys are distinct, and then the registry holds exactly the declarations; otherwise the error names one of the keys |
| Preferences.CreatePrefs | app/src/main/java/me/rocka/fcitx5test/data/Prefs.kt:113-125 | creating the registry succeeds iff the seven resource keys are distinct, and then it holds five `true` flags, the limit 5 and the style with its codec |
| Preferences.Companion.constructor | app/src/main/java/me/rocka/fcitx5test/data/Prefs.kt:128 | there is no instance at first |
| Preferences.Companion.Init | app/src/main/java/me/rocka/fcitx5test/data/Prefs.kt:133-139 | with an instance, nothing changes; otherwise a new registry becomes the instance and is subscribed to the store; if its creation fails, nothing changes |
| Preferences.Companion.GetInstance | app/src/main/java/me/rocka/fcitx5test/data/Prefs.kt:141-142 | before `Init` the result is a not-initialised failure, and afterwards it is the instance |

## Left out

- Android views are abstracted:
  - a text view is its main and alternate text;
  - the caps button is a `CapsIcon`;
  - the language key is a visibility flag;
  - view lookup by resource id and the `allViews` traversal become the fixed `textKeys` sequence.
- `KeyDef`, its appearances and `BaseKeyboard` are not part of this model. The model assumes:
  - an alphabet key is an `AltText` view (key code, display text, alternate text);
  - the layout-switch, comma, space and symbol keys are `Text` views, the space bar's text being " ";
  - caps, backspace, language and return keys are image views.
- Keyboard.TextKeyboard.constructor: the registration of the language-key listener on its preference is not modelled. The preference's value is a constructor parameter, and a client calls `UpdateLangSwitchKey` directly whenever that preference changes.
- The calls to `super.onAction` and `super.onPopupAction`: `OnPopupAction` returns the action it would pass on.
- `onReturnDrawableUpdate`: it only sets an image resource.
- Key widths, colour variants and the float weights in the layout.
- Chars.Uppercase: covers ASCII only. Case mapping changes only ASCII letters; `isLetter` is restricted to ASCII letters and the CJK Unified Ideographs block; locale rules and the rest of Unicode are left out.
- The `keepLettersUppercase` preference delegate is a field the client may set; the preference lookup is not modelled.
- Keyboard.TextKeyboard.UpdatePunctuationKeys: requires every plain-text view to have a non-empty text. On an empty text the source would throw on `str[0]`; the layout's views meet this (`LayoutViewsWellFormed`).
- Preferences.PlainRead: `KClass.cast` is modelled as an exact kind check. A `Float` is opaque 32 bits; enum and other objects are a class name and a text.
- Preferences.ManagedPreference.Get: the Kotlin exception thrown on a class-cast or decode failure is returned as a `ReadResult` failure.
- The listener set is a plain set. The weak references of `WeakHashSet` and their garbage collection are not modelled, and neither is what a listener does when called: `FireChange` returns the calls it makes.
- Store edits are immediate map updates. The asynchronous persistence of `SharedPreferences`, and the store calling its change listeners on its own, are left out. `OnSharedPreferenceChanged` is the entry point.
- `@Synchronized` locking of the companion is left out; the model is sequential.
- The `toString` of a preference, and the delegate operators `getValue`/`setValue`, which only forward to the value's get and set.
- The seven named properties of `Prefs` (`firstRun`, …, `expandableCandidateStyle`) are reached through the registry by their key. `ExpandableCandidate.Style` and its codec are not part of this model: the style default and codec are parameters.
- Preferences.Declare: the source's seven property initialisers run in order. The model runs them as a walk over the `Declarations` table, which declares the same keys in the same order.
- `DeveloperFragment` as a whole: heap dumps, file copies, dialogs and database clearing are I/O and UI.
