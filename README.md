# Midjourney prompt builders, modelled in Dafny

The repository is a small Next.js site. Its core is three form components.
Each one keeps a flat record of form values and turns it into a Midjourney
prompt string:

- a comma-separated description of the scene (medium, subject, setting,
  camera and style choices);
- followed by command-line style parameters (`--tile`, `--style raw`,
  `--ar 16:9`, `--no …`, `--sref …`, `--v 6.1`).

The three components are separate rewrites of the same idea. Their
separators, guards and defaults differ, so each is modelled as written, in
its own module:

| module | component | form |
|---|---|---|
| `StructuredPrompt` | `src/components/structured-prompt-generator.tsx` | a `Generator` class (form record, generated prompt, `copied` and `showPrompt` flags). An effect rebuilds the prompt by `+=` appends; here that effect is `RefreshPrompt`. |
| `ListPrompt` | `src/components/promptgenerator.tsx` | a `Generator` class that holds only the form record. The prompt is the pure function `GeneratePrompt`: a fixed array of optional elements, `filter(Boolean)`, `join(", ")`, one space, then the parameter list joined by `" "`. |
| `LabelledPrompt` | `src/components/prompt-generator.tsx` | a `Generator` class whose `GeneratePrompt` method rebuilds the prompt by `+=` appends when the button is pressed. Labels are `View:`, `Camera:` and `Lens:`, and the separator is `" , "`. |

## How the model is built

The shared module `Segments` describes every prompt as a list of
candidates. A candidate is a tag, a trigger (`enabled`) and the text it
adds.

- `Kept` keeps the candidates whose trigger holds.
- `Render` writes the kept texts the way an `if (…) prompt += sep + text`
  chain does.
- `Compact` and `Join` are JavaScript's `filter(Boolean)` and `join`.

The appending components are `while`-free sequences of guarded appends.
Their methods (`DescribeScene`, `AppendComposition`, `AppendStyle`,
`CollectParameters`, `AppendPlainParameters`, `AppendReferences`,
`Describe`, `AppendFlags`, `AppendPlainFlags`) perform those appends one
by one. Each is proved equal to `Render(Kept(candidates), sep)` of its
candidate list.

Properties are then stated per tagged piece:

- each piece is present exactly when its condition holds, with its exact
  text (`Lookup`);
- pieces come in the source's fixed order (`Ranked`);
- a few whole-string facts: how the prompt starts, how it ends, and the
  prompt for the initial form.

Claims of the form "the prompt contains `--tile`" are stated per piece
rather than on the raw string. The free-text fields may themselves contain
`", "` or `"--tile"`, which would make a raw-string claim false.

`handleInputChange(field, value)` is modelled by a typed `Edit`:

- `SetText(field, text)` replaces one text or dropdown field;
- `SetFlag(flag, on)` replaces one checkbox.

`Apply` states that the named field takes the new value and every other
field keeps its old one.

### Where the three components differ

Each component is modelled as its own code is written. They differ in
these ways:

- `StructuredPrompt` always writes `medium + " of " + subject`. Its initial
  prompt is therefore `" of  --ar 16:9"` (see `StructuredPrompt.DefaultPrompt`).
- `StructuredPrompt` guards artist and film name only against the empty
  string. Yet both dropdowns offer a `"None"` option
  (`src/components/structured-prompt-generator.tsx:685` and `:780`), so
  choosing it prints `by None` or `None film style`
  (`StructuredPrompt.NoneChoicesPrinted`). `ListPrompt` guards both against
  `"None"` (`ListPrompt.NoArtistNone`).
- `ListPrompt` joins medium and subject only when both are present and
  drops a `"None"` medium (`ListPrompt.MediumSubject`). `LabelledPrompt`
  writes the bare subject when the medium is `"None"`.
- `LabelledPrompt` can emit two `--sref` tokens: one for the image URL,
  then a random or typed one (`LabelledPrompt.StyleReferences`).
- In `ListPrompt` the "Random" style-reference checkbox is not a separate
  flag. It writes the text `"random"` into the style reference field, which
  then prints as `--sref random` (`ListPrompt.RandomReference`).

## Model

| member | source | states |
|---|---|---|
| Segments.Compact | src/components/promptgenerator.tsx:115 | `filter(Boolean)` on strings: a string is in the result iff it is a non-empty string of the input, and the result is never longer than the input (order is kept by the definition and used through `EntriesCompact` and `CompactSnoc`) |
| Segments.Join | src/components/promptgenerator.tsx:116 | `join(sep)` of a non-empty list starts with its first element and ends with its last |
| Segments.Render | src/components/structured-prompt-generator.tsx:103-129 | a non-empty rendering of `if (…) prompt += sep + text` appends opens with the separator and ends with the separator followed by the last kept text (the same appends as `src/components/prompt-generator.tsx:67-98`) |
| Segments.EntriesCompact | src/components/promptgenerator.tsx:82-104 | filtering a literal array of optional strings yields exactly the texts of the tagged entries whose string is non-empty |
| Segments.AppendStep | src/components/structured-prompt-generator.tsx:103-105 | one guarded `prompt += sep + text` keeps the accumulated prompt equal to the rendering of the candidates seen so far, whether or not the guard holds |
| StructuredPrompt.Apply | src/components/structured-prompt-generator.tsx:85-86 | the edited field takes the new value; every other text field and checkbox keeps its old value |
| StructuredPrompt.ApplyUnchanged | src/components/structured-prompt-generator.tsx:85-86 | writing a field's current value back leaves the form unchanged |
| StructuredPrompt.Generator.constructor | src/components/structured-prompt-generator.tsx:53-83 | starts from the initial form record with an empty prompt, `copied` false and the prompt card hidden |
| StructuredPrompt.Generator.HandleInputChange | src/components/structured-prompt-generator.tsx:85-88 | form becomes `Apply(old form, edit)`; the prompt card is shown; prompt and `copied` are untouched |
| StructuredPrompt.Generator.RefreshPrompt | src/components/structured-prompt-generator.tsx:90-133 | the generated prompt becomes the scene description followed by the parameters of the current form; nothing else changes |
| StructuredPrompt.Generator.EditPrompt | src/components/structured-prompt-generator.tsx:1038 | typing in the text area replaces the generated prompt and nothing else |
| StructuredPrompt.Generator.CopyToClipboard | src/components/structured-prompt-generator.tsx:135-139 | the clipboard receives the current generated prompt and `copied` becomes true; form and prompt are unchanged |
| StructuredPrompt.Generator.ResetCopied | src/components/structured-prompt-generator.tsx:138 | the timer callback clears `copied` and changes nothing else |
| StructuredPrompt.DescribeScene | src/components/structured-prompt-generator.tsx:91-118 | the appends produce the optional URL, `medium of subject`, then every kept setting, composition and style piece, each after `", "` |
| StructuredPrompt.AppendComposition | src/components/structured-prompt-generator.tsx:108-111 | appends `", " + value` for each of view, camera, lens and lighting that is not `"None"`, in that order |
| StructuredPrompt.AppendStyle | src/components/structured-prompt-generator.tsx:114-118 | appends the mood, movement, `by artist`, `film style` and `Time Period:` pieces whose guards hold, in that order |
| StructuredPrompt.CollectParameters | src/components/structured-prompt-generator.tsx:121-129 | the parameters string is `" " + token` for each triggered token in the fixed order |
| StructuredPrompt.AppendPlainParameters | src/components/structured-prompt-generator.tsx:121-124 | appends ` --tile`, ` --style raw`, ` --ar <ratio>` (unless `"None"`) and ` --no <words>` (when set), each exactly when its trigger holds, in that order |
| StructuredPrompt.AppendReferences | src/components/structured-prompt-generator.tsx:125-129 | appends ` --sref random` when random is ticked, otherwise ` --sref <ref>` when a reference is typed, otherwise nothing |
| StructuredPrompt.DescriptivePieces | src/components/structured-prompt-generator.tsx:103-118 | each descriptive piece is present iff its guard holds (non-empty, or not `"None"`) and then has exactly its templated text |
| StructuredPrompt.NoneChoicesPrinted | src/components/structured-prompt-generator.tsx:116-117 | an artist or film name of `"None"` is printed as `by None` or `None film style` |
| StructuredPrompt.ParameterTokens | src/components/structured-prompt-generator.tsx:121-129 | each of `--tile`, `--style raw`, `--ar`, `--no`, `--sref random`, `--sref <ref>` is present iff its trigger holds; a typed reference only when random is off |
| StructuredPrompt.OneStyleReference | src/components/structured-prompt-generator.tsx:125-129 | never both a random and a typed style reference |
| StructuredPrompt.FixedOrder | src/components/structured-prompt-generator.tsx:103-129 | the kept descriptive pieces and the kept parameter tokens appear in strictly increasing source order |
| StructuredPrompt.PromptOpening | src/components/structured-prompt-generator.tsx:95-100 | the prompt starts with `url + " "` when a reference URL is set, then always `medium + " of " + subject` |
| StructuredPrompt.RandomReferenceLast | src/components/structured-prompt-generator.tsx:125-132 | with random style on, the prompt ends with ` --sref random` |
| StructuredPrompt.TypedReferenceLast | src/components/structured-prompt-generator.tsx:127-132 | with random off and a typed reference, the prompt ends with ` --sref <ref>` |
| StructuredPrompt.ImageUrlUnused | src/components/structured-prompt-generator.tsx:90-133 | changing the image URL field never changes the prompt |
| StructuredPrompt.DefaultPrompt | src/components/structured-prompt-generator.tsx:53-76 | the initial form gives the prompt `" of  --ar 16:9"` |
| ListPrompt.Apply | src/components/promptgenerator.tsx:74-79 | the edited field takes the new value; every other field keeps its old value |
| ListPrompt.ApplyUnchanged | src/components/promptgenerator.tsx:74-79 | writing a field's current value back leaves the form unchanged |
| ListPrompt.Generator.constructor | src/components/promptgenerator.tsx:45-72 | starts from the initial form record |
| ListPrompt.Generator.HandleInputChange | src/components/promptgenerator.tsx:74-79 | form becomes `Apply(old form, edit)` |
| ListPrompt.PiecesJoined | src/components/promptgenerator.tsx:82-116 | the description is the kept element texts joined by `", "`, and the parameters are the kept tokens joined by `" "` |
| ListPrompt.NoEmptySegment | src/components/promptgenerator.tsx:104-115 | no joined segment is empty, so no `", , "` or double space comes from a missing element |
| ListPrompt.MediumSubject | src/components/promptgenerator.tsx:87 | medium and subject: both give `medium of subject`, one alone gives itself, neither gives nothing; a `"None"` medium counts as absent |
| ListPrompt.Description | src/components/promptgenerator.tsx:82-104 | the description is empty iff every element is absent, and opens with the reference URL when one is set |
| ListPrompt.Parameters | src/components/promptgenerator.tsx:107-116 | the parameters are empty iff every token is absent, and open with `--tile` when tiling is on |
| ListPrompt.LeadingElements | src/components/promptgenerator.tsx:84-90 | the reference URL, the medium/subject element and the setting are present iff non-empty |
| ListPrompt.DropdownElements | src/components/promptgenerator.tsx:93-100 | view, camera, lens, lighting, mood and movement are present iff neither `"None"` nor empty |
| ListPrompt.TemplatedElements | src/components/promptgenerator.tsx:101-103 | `by artist`, `film style` and `Time Period:` are present iff their field is neither `"None"` nor empty |
| ListPrompt.NoArtistNone | src/components/promptgenerator.tsx:101 | the artist element is never `by None` |
| ListPrompt.ParameterTokens | src/components/promptgenerator.tsx:107-116 | each token (`--tile`, `--style raw`, `--ar`, `--no`, `--sref`, version) is present iff its field is set, with its exact text |
| ListPrompt.RandomReference | src/components/promptgenerator.tsx:1054-1059 | ticking Random yields the token `--sref random`; unticking it removes the style reference token |
| ListPrompt.FixedOrder | src/components/promptgenerator.tsx:82-116 | kept elements and kept tokens appear in strictly increasing source order |
| ListPrompt.GeneratePrompt | src/components/promptgenerator.tsx:81-119 | the prompt starts with the description and a space, ends with a space and the parameters, and is exactly one character longer than the two together |
| ListPrompt.Generator.Shown | src/components/promptgenerator.tsx:1081 | the shown prompt opens with the reference URL when one is set and ends with `" " + version` when a version is set |
| ListPrompt.Generator.CopyToClipboard | src/components/promptgenerator.tsx:121-124 | the clipboard receives exactly the shown prompt; the form is not changed |
| ListPrompt.VersionLast | src/components/promptgenerator.tsx:113-118 | a non-empty version is the last token of the prompt |
| ListPrompt.DefaultPrompt | src/components/promptgenerator.tsx:45-72 | the initial form gives `" --ar 16:9 --v 6.1"` |
| ListPrompt.BlankPrompt | src/components/promptgenerator.tsx:118 | with every field empty and both checkboxes off the prompt is a single space |
| LabelledPrompt.Apply | src/components/prompt-generator.tsx:53-55 | the edited field takes the new value; every other field keeps its old value |
| LabelledPrompt.ApplyUnchanged | src/components/prompt-generator.tsx:53-55 | writing a field's current value back leaves the form unchanged |
| LabelledPrompt.Generator.constructor | src/components/prompt-generator.tsx:26-51 | starts from the initial form record with an empty prompt and `copied` false |
| LabelledPrompt.Generator.HandleInputChange | src/components/prompt-generator.tsx:53-55 | form becomes `Apply(old form, edit)`; the shown prompt is not regenerated |
| LabelledPrompt.Generator.GeneratePrompt | src/components/prompt-generator.tsx:57-101 | the prompt becomes the opening, the kept labelled pieces after `" , "`, then the kept flags after `" "`; form and `copied` unchanged |
| LabelledPrompt.Generator.EditPrompt | src/components/prompt-generator.tsx:622 | typing in the text area replaces the prompt and nothing else |
| LabelledPrompt.Generator.CopyToClipboard | src/components/prompt-generator.tsx:103-107 | the clipboard receives the current prompt and `copied` becomes true |
| LabelledPrompt.Generator.ResetCopied | src/components/prompt-generator.tsx:106 | the timer callback clears `copied` and changes nothing else |
| LabelledPrompt.Describe | src/components/prompt-generator.tsx:58-87 | the appends produce the opening followed by every kept description piece after `" , "` |
| LabelledPrompt.AppendComposition | src/components/prompt-generator.tsx:67-73 | appends `by artist` when an artist is set and `View:`, `Camera:`, `Lens:` for choices other than `"None"` |
| LabelledPrompt.AppendStyle | src/components/prompt-generator.tsx:75-87 | appends film, mood, movement, lighting (each unless `"None"`) and `film style` (when set) in that order |
| LabelledPrompt.AppendFlags | src/components/prompt-generator.tsx:89-98 | appends `" " + token` for each triggered flag in the fixed order |
| LabelledPrompt.AppendPlainFlags | src/components/prompt-generator.tsx:90-94 | appends ` --tile`, ` --style raw`, ` --ar <ratio>` (unless `"None"`) and ` --no <words>` (when set), each exactly when its trigger holds, in that order |
| LabelledPrompt.AppendReferences | src/components/prompt-generator.tsx:95-98 | appends ` --sref <image URL>` when a URL is set, then ` --sref random` when ticked, otherwise ` --sref <ref>` when one is typed |
| LabelledPrompt.PromptOpening | src/components/prompt-generator.tsx:60-65 | the prompt starts with `medium of subject`, or with the bare subject when the medium is `"None"` |
| LabelledPrompt.DescriptivePieces | src/components/prompt-generator.tsx:67-87 | each labelled piece is present iff its guard holds and then has exactly its labelled text |
| LabelledPrompt.FlagTokens | src/components/prompt-generator.tsx:89-98 | each flag token, including the image URL `--sref`, is present iff its trigger holds, with its exact text |
| LabelledPrompt.StyleReferences | src/components/prompt-generator.tsx:95-98 | an image URL together with a random or typed reference gives two `--sref` tokens; random and typed never both appear |
| LabelledPrompt.FixedOrder | src/components/prompt-generator.tsx:67-98 | kept pieces and kept flags appear in strictly increasing source order |
| LabelledPrompt.BackgroundColorUnused | src/components/prompt-generator.tsx:57-101 | changing the background colour never changes the prompt |
| LabelledPrompt.RandomReferenceLast | src/components/prompt-generator.tsx:96-98 | with random style on, the prompt ends with ` --sref random` |
| LabelledPrompt.DefaultPrompt | src/components/prompt-generator.tsx:26-46 | the initial form gives `" --ar 1:1"` |

## Left out

- The JSX layout, option catalogs, icons and styling are left out. Only the
  `"None"` sentinel values that the prompt code compares against are modelled.
- `src/app/page.tsx` and the other pages only mount the components. They
  are not part of this model.
- React scheduling is not modelled. The `useEffect` in `StructuredPrompt`
  is the explicit method `RefreshPrompt`, to be called after each form
  change. Batching and re-render order are not captured.
- The clipboard write is modelled as the string that `CopyToClipboard`
  returns. Its promise and any failure are not modelled.
- The 2-second `setTimeout` is modelled as a separate `ResetCopied` call.
  Timing and overlapping timers are not modelled.
- `handleInputChange` accepts any field name with a `string | boolean`
  value. The model only allows a string for a text field and a boolean
  for a checkbox, which is how every caller in the components uses it.
- `ListPrompt.Generator` has no `generatedPrompt` field, because the
  component recomputes `generatePrompt()` on each render and on copy.
  `Shown` and `CopyToClipboard` both recompute it from the form.
- Properties such as "the prompt contains `--tile`" are stated per tagged
  piece, not as substring facts about the final string. Free text typed
  into a field can contain the same characters.
