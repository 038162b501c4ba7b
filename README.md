# Questionnaire: a verified model of the prompt helpers

`Questionnaire` is a class of static helpers over the `inquirer` prompt
library. Each helper generates an answer key with `makeName()`, awaits
`prompt(...)`, and returns the answer stored under the generated key. Most
helpers build the question by merging a base descriptor
`{type, name, message[, choices]}` with the caller's override record
(`extend`) using lodash's `_.merge`; `yesOrNo` submits its literal descriptor
without a merge. A few helpers add their own logic around that call:

- `trueOrFalse` reads a typed reply as a boolean;
- `askWithOptionsAndReturnIndex` and `selectOneIndex` turn the chosen label
  back into its position;
- `choose` wraps bare string labels into `{name}` objects;
- `askForNumber` installs a numeric guard in front of the caller's validator;
- `askForPassword` defaults the mask to `*`.

This project models those helpers in Dafny and proves what they promise.

The prompt engine and the key generator are outside the model. Every helper
takes the generated key as a parameter `name` and the engine's reply (the
answer map that `prompt` resolves to) as a parameter `answers`. It returns a
`Call`: the descriptor it submitted, together with the value it returns. The
host's `isNaN(Number(input))` test becomes a predicate parameter `isNumber`.
The number guard closure remembers it, together with the caller's earlier
validator.

Modules:

- `JsText` (`js_text.dfy`): `String.prototype.trim`, over the JavaScript
  white-space set, with a proof that the trimmed part is unique; and
  `toLowerCase`.
- `Values` (`values.dfy`): JavaScript values and truthiness; validators and
  what they answer (`Run`); the caller's options object as the class
  `Options`.
- `Descriptor` (`descriptor.dfy`): the flat `_.merge`, the base descriptor,
  and the shared merge-submit-read step `Prompt`.
- `Questionnaire` (`questionnaire.dfy`): one member per helper. Helpers that
  only read `extend` take its contents as a `Record` value and are functions.
  `choose` is a method, because it builds its list in a loop.
  `askForNumber`, `askForPassword` and `askForPasswordHidden` write to the
  caller's options object, so they are methods with `modifies extend`. Each
  has a pure counterpart that gives the new field map: `WithNumberGuard` and
  `MaskDefaulted`.
- `Properties` (`properties.dfy`): lemmas that characterise `trueOrFalse`
  independently and relate several calls. It also covers the index round
  trip and the submitted number and password questions.

Default arguments of the source are explicit parameters here:
`def = false`, `allowYesOrNoResponse = true`, `hide = false` and
`extend = {}`. `hide` is a reserved word in Dafny, so the parameter is called
`hideInput`.

Notes on behaviour, all as the code does it:

- `trueOrFalse` tests the reply for falsiness before trimming. An empty reply
  gives the default. A reply of spaces gives `false`.
- `choose` looks only at `choices[0]` to decide between bare labels and
  choice objects. An empty list is forwarded unchanged.
- `askForPassword` replaces any falsy mask: absent, `undefined`, `null`, `""`,
  `false` or `0`. It does not only replace a missing mask.
- `askForNumber` writes the guard into the caller's own options object. Asking
  twice with the same object nests two guards.
  `Properties.NumberGuardTwice` shows that this gives the same verdicts.
- The answer is read under the generated key even when `extend` overrides
  `name`. `Descriptor.OverriddenNameLosesAnswer` shows that the helper then
  reads `undefined`.

## Model

| member | source | states |
|---|---|---|
| `JsText.SkipWhite` | Questionnaire.ts:70 | the scan stops at the first position at or after its start that does not hold white space, and everything it passed is white space |
| `JsText.SkipWhiteBack` | Questionnaire.ts:70 | the backward scan stops just after the last non-white position above its lower bound, and everything it passed is white space |
| `JsText.Trim` | Questionnaire.ts:70 | `trim(s)` is the slice of `s` from its first non-white character; only white space lies outside it, and it neither starts nor ends with white space |
| `JsText.TrimUnique` | Questionnaire.ts:70 | any slice with only white space outside it and none at its ends is `trim(s)` (the trimmed part is unique) |
| `JsText.Lower` | Questionnaire.ts:70 | `toLowerCase` keeps the length, turns each capital letter into its small letter, keeps every other character, and leaves white space where it was |
| `Values.Truthy` | Questionnaire.ts:68 | the falsy values are exactly `undefined`, `null`, `false`, `0` and `""` (used by `!ask` at :68, the `definedValidator ?` test at :290 and `!extend.mask` at :317) |
| `Values.Get` | Questionnaire.ts:96 | reading `answer[name]` gives the stored value when the key is present and `undefined` when it is missing |
| `Values.Run` | Questionnaire.ts:284-291 | the guard closure answers "A valid number is expected!" on a non-number before anything else, `true` on a number without an earlier validator, and otherwise the earlier validator's verdict |
| `Descriptor.Merge` | Questionnaire.ts:89-93 | the merged descriptor has the keys of both records; an override wins; a base value survives a missing or `undefined` override |
| `Descriptor.Base` | Questionnaire.ts:89-93 | the base descriptor holds exactly `type`, `name`, `message` and, when given, `choices` |
| `Descriptor.MergeNothing` | Questionnaire.ts:82-94 | merging the default empty override record `{}` leaves the base descriptor as it is |
| `Descriptor.Prompt` | Questionnaire.ts:85-96 | the submitted descriptor is the base merged with `extend`, key by key; the result is the answer under the generated name, or `undefined` |
| `Descriptor.AnswerReadUnderSubmittedName` | Questionnaire.ts:85-96 | unless `extend` overrides `name`, the descriptor's `name` is the generated key the answer is read back under |
| `Descriptor.OverriddenNameLosesAnswer` | Questionnaire.ts:85-96 | with `name` overridden, an engine answering under the submitted name leaves the helper with `undefined` |
| `Questionnaire.YesOrNo` | Questionnaire.ts:36-52 | submits exactly `{name, type: 'confirm', message, default}` and returns the answer under `name` |
| `Questionnaire.Ask` | Questionnaire.ts:82-97 | submits the `input` base merged with `extend`; returns the answer under `name` |
| `Questionnaire.Labels` | Questionnaire.ts:121 | the `choices` the engine receives are the labels in order, each a string; a value is among them exactly when it is one of the labels |
| `Questionnaire.AskWithOptions` | Questionnaire.ts:111-126 | submits the `rawlist` base with the labels as `choices`, merged with `extend` |
| `Questionnaire.SelectOne` | Questionnaire.ts:158-173 | submits the `list` base with the labels as `choices`, merged with `extend` |
| `Questionnaire.AskWithDetailedOptions` | Questionnaire.ts:200-216 | submits the `expand` base with `choices` (possibly `undefined`), merged with `extend` |
| `Questionnaire.Checkbox` | Questionnaire.ts:224-240 | submits the `checkbox` base with the given choice objects, merged with `extend` |
| `Questionnaire.Editor` | Questionnaire.ts:352-366 | submits the `editor` base merged with `extend` |
| `Questionnaire.AcceptedTokens` | Questionnaire.ts:64-65 | `true` and `t` are always accepted; `yes` and `y` are accepted exactly when yes/no answers are allowed; nothing else is |
| `Questionnaire.ReadTrueOrFalse` | Questionnaire.ts:68-71 | a falsy reply gives the default; a non-empty string gives whether its trimmed, lower-cased form is an accepted token; any other value throws |
| `Questionnaire.TrueOrFalse` | Questionnaire.ts:63-72 | asks exactly `question + " (true/false)"` as an `input` question with no overrides, and reads the reply under `name` |
| `Questionnaire.IndexOf` | Questionnaire.ts:143 | the result is the first position holding the label, and -1 exactly when the label is absent |
| `Questionnaire.IndexOfAnswer` | Questionnaire.ts:190 | a non-string answer gives -1; a string answer gives its first position, or -1 when absent |
| `Questionnaire.AskWithOptionsAndReturnIndex` | Questionnaire.ts:142-144 | submits the `askWithOptions` descriptor; returns the first position of the chosen label, or -1 when the answer is not one of the labels |
| `Questionnaire.SelectOneIndex` | Questionnaire.ts:189-191 | submits the `selectOne` descriptor; returns the first position of the chosen label, or -1 when the answer is not one of the labels |
| `Questionnaire.NormaliseChoices` | Questionnaire.ts:255-265 | when `choices[0]` is a string, the result has the same length and element `i` is `{name: choices[i]}`; otherwise it is `choices` unchanged |
| `Questionnaire.Choose` | Questionnaire.ts:254-268 | asks the `checkbox` question over the normalised choices, with the same `extend`, name and reply |
| `Questionnaire.CallerValidator` | Questionnaire.ts:283 | the validator the caller had under `validate` is found exactly when `validate` holds a validator, and it is that validator |
| `Questionnaire.WithNumberGuard` | Questionnaire.ts:283-291 | only `validate` changes; the new validator answers "A valid number is expected!" on a non-number, and otherwise gives the caller's validator's verdict, or `true` without one |
| `Questionnaire.AskForNumber` | Questionnaire.ts:278-303 | the caller's options object becomes `WithNumberGuard` of its old fields, and the `number` question is merged with the updated object |
| `Questionnaire.MaskDefaulted` | Questionnaire.ts:317 | `mask` becomes `*` when hiding and the mask is falsy; otherwise `mask` is unchanged; no other key changes |
| `Questionnaire.AskForPassword` | Questionnaire.ts:314-329 | the caller's options object becomes `MaskDefaulted` of its old fields, and the `password` question is merged with the updated object |
| `Questionnaire.AskForPasswordHidden` | Questionnaire.ts:339-341 | the same as `AskForPassword` with `hide` set |
| `Properties.SpellsIffTrimmed` | Questionnaire.ts:70-71 | a reply spells a word up to padding and letter case exactly when its trimmed, lower-cased form is that word |
| `Properties.TrueOrFalseMeaning` | Questionnaire.ts:63-71 | a non-empty reply reads as true iff, up to padding and case, it is `true` or `t`, or `yes` or `y` when allowed |
| `Properties.WhiteReplyIsFalse` | Questionnaire.ts:68-71 | a reply of white space only reads as false, not as the default |
| `Properties.YesNeedsTheFlag` | Questionnaire.ts:64-65 | `yes` or `y` in any case reads as false without the flag and as true with it |
| `Properties.EmptyReplyGivesDefault` | Questionnaire.ts:68 | an empty or missing reply gives the default, whatever the flag |
| `Properties.UpperYesAllowed` | Questionnaire.ts:65-71 | `YES` reads as true when yes/no answers are allowed |
| `Properties.YesDisallowed` | Questionnaire.ts:64-71 | `yes` reads as false when yes/no answers are not allowed |
| `Properties.PaddedUpperT` | Questionnaire.ts:64-71 | ` T ` reads as true whatever the flag |
| `Properties.IndexOfDistinct` | Questionnaire.ts:143 | with distinct labels, the label at `i` is found at `i` |
| `Properties.PickedIndexRoundTrip` | Questionnaire.ts:142-144 | with distinct labels, no `choices` override and the label at `i` picked, both index helpers return `i` |
| `Properties.RepeatedLabelGivesFirst` | Questionnaire.ts:190 | with a repeated label, the position of its first occurrence is returned |
| `Properties.ChooseSubmitsNameRecords` | Questionnaire.ts:254-268 | the checkbox question lists `{name: c}` for each bare label in order, or the choices as given |
| `Properties.NumberQuestionIsGuarded` | Questionnaire.ts:283-300 | the submitted `number` question's validator rejects non-numbers with the fixed message and otherwise defers to the caller's original validator |
| `Properties.GuardIgnoresCallerOnNonNumber` | Questionnaire.ts:285-288 | on a non-number the guard's verdict does not depend on the caller's validator |
| `Properties.NumberGuardTwice` | Questionnaire.ts:283-284 | guarding the same options twice gives the same verdicts as guarding once |
| `Properties.PasswordMaskSubmitted` | Questionnaire.ts:317-326 | the submitted `password` question masks with `*` when hiding without a truthy mask, and otherwise carries the caller's mask |
| `Properties.MaskDefaultedIdempotent` | Questionnaire.ts:317 | defaulting the mask a second time changes nothing |

## Left out

- `inquirer.prompt` and `Questionnaire.inquirer()`: the interactive terminal engine is foreign and asynchronous. Its reply is the parameter `answers`, and the engine's own validation retries are not modelled.
- `makeName` (from `./Functions`): Functions.ts is not part of this model. Each generated key is the parameter `name`, so the uniqueness of keys is not modelled.
- `Number(...)` and `isNaN`: JavaScript's string-to-number parsing is the predicate parameter `isNumber`. The model therefore says nothing about which strings are numbers (for example, `Number("")` is `0`).
- `_.merge` deep merging: arrays and plain objects present on both sides are merged element by element in lodash. The model replaces them whole, so an overriding `choices` array shorter than the base one is not merged with it.
- `Questionnaire.AskWithOptionsAndReturnIndex`, `Questionnaire.SelectOneIndex`: the base descriptor holds the caller's own `list` array (Questionnaire.ts:121 and :168), so an array-valued `extend.choices` is merged by lodash into that array in place, and `list.indexOf` (:143 and :190) then searches the changed array. The model searches the list as passed: with `list = ["A", "B"]`, `extend = {choices: ["Z"]}` and reply `"Z"` the source returns 0 where the model returns -1. `Properties.PickedIndexRoundTrip` is therefore stated only when `extend` does not override `choices`.
- `JsText.Lower`: only `A`–`Z` are folded, not the full Unicode lower-case mapping of `toLowerCase`.
- Validators receive only the typed input. The answers hash that inquirer passes as a second argument is not modelled. A truthy `validate` that is not a function is treated as no validator.
- Numbers are reals, so `NaN` and its falsiness are not represented.
- `yesOrNo`'s confirm prompt turns the typed text into a boolean. That conversion belongs to the engine, and `YesOrNo` returns whatever the reply map holds.
- The type declaration files and build.ts describe no behaviour of the helpers. They are not part of this model.
