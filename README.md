# Baby Story Generator — a verified model of the story core

Baby Story Generator is a web app that writes bedtime stories for small
children. A parent fills in a form: the baby's name and age, up to three
animal characters, a feeling, a theme, a setting and a lesson. The app then
requests the story in one of two ways:

- from Google's Gemini model, through `GeminiService`;
- from an offline template generator, `storyGenerator`, which fills
  sentence templates with the form's values and with randomly drawn names.

This project models three parts of that core in Dafny and proves properties
of the model:

- **The form's logic** (`story_form.dfy`, module `StoryForm`): the
  parameter record, the option lists and the initial state, character
  toggling with its limit of three, the submit guard and the button's
  `disabled` condition. The form state is a class whose setters update it
  in place.
- **The template generator** (`placeholders.dfy`, `story_generator.dfy`,
  `story_properties.dfy`):
  - the template, action, discovery and name tables;
  - `getRandomItem`, with the random index passed in as a parameter;
  - the name dictionary `generateCharacterNames` builds, written as a loop;
  - the chain of global replaces done by `replacePlaceholders`;
  - sentence composition, and the paragraph formatter with its loop.

  `Placeholders` gives a template text its structure as literal pieces and
  `{name}` slots. That is what makes "which placeholders survive into the
  story" provable.
- **The Gemini service** (`gemini_text.dfy`, `gemini_service.dfy`):
  - the retry loop with exponential backoff, over a list of outcomes that
    stands for the model's answers to successive calls;
  - the prompt, as a template literal over the form's fields;
  - the regular-expression clean-up of `formatStory`, written out as
    left-to-right matchers;
  - `processStoryWithMedia`;
  - the configuration check and the two error messages of `generateStory`;
  - the service object, with `genAI` and `model` as fields.

`strings.dfy` writes out the JavaScript string operations the core uses:

- `includes`, a global literal `replace`, `split`, `join`;
- `toLowerCase` and `String(n)`;
- the character classes behind `\s` and `.`.

`trim` is written out in `gemini_text.dfy`, next to the regular expressions
it works with.

`wrappers.dfy` holds `Option` and `Result`.

The source and its design description disagree in a few places. The model
follows the source:

- The offline `formatStory` never takes the branch at
  `src/services/storyGenerator.ts:131`. Every piece of the `'. '` split
  except the last gets the separator put back. A paragraph that is still
  open therefore always splits into at least two parts, and the next
  sentence closes it. So each sentence becomes its own paragraph, not two
  sentences per paragraph as the comment suggests. The model's loop has
  `assert false` in that branch. `FormatStory` and `ParagraphsShape` state
  the result.
- Gemini's `formatStory` is not idempotent. `"#  x"` becomes `" x"`, since
  the heading rule removes `"# "` after the text was trimmed, and a second
  pass trims it to `"x"`. So no idempotence is claimed. `FormatStoryCleans`
  states what the result does satisfy.
- `processStoryWithMedia` always returns `videoUrl: null`. The video promise
  updates a local variable only after the object has been returned.
- The prompt mentions the lesson twice, once in the requirements and once
  in the "message about" line.
- When the form has fewer than three characters, the generator leaves
  `{character3Name}` and `{character3}` in the story, because every
  template has a sentence with them. `MissingThirdCharacterLeftInText`
  proves this.
- The offline formatter breaks the text after every `'. '`, including
  inside a value. A baby named "Dr. Mia" appears in the story as "Dr." at
  the end of one paragraph and "Mia" at the start of the next.
  `BabyNameInText` is therefore stated for names without a `.`.

The properties of the offline story are first proved about the sentences
joined by spaces. `ParagraphBreaksKeep` and `ParagraphBreaksOnlyBreaks`
then carry them to the formatted story. The formatter only turns a
`'. '` into `". \n\n"`, so text without a `.` survives, and text
without a line break is new in the story only if it was in the
sentences.

## Model

| member | source | states |
|---|---|---|
| StoryForm.InitialFormData | src/components/StoryForm.tsx:21-36 | the initial form has an empty name and no characters, and every other field is one of its option lists' values |
| StoryForm.Form.constructor | src/components/StoryForm.tsx:21-29 | a new form holds the initial form data and satisfies the form invariant |
| StoryForm.Toggled | src/components/StoryForm.tsx:41-43 | a selected character is gone after the click, nothing but the clicked character is ever added, and an unselected one is added when fewer than three are selected |
| StoryForm.Without | src/components/StoryForm.tsx:42 | the filtered list holds exactly the old entries that differ from the character |
| StoryForm.WithoutNoDuplicates | src/components/StoryForm.tsx:42 | filtering a duplicate-free selection keeps it duplicate-free |
| StoryForm.ToggleDeselects | src/components/StoryForm.tsx:41-42 | toggling a selected character removes exactly that entry and keeps the order of the others |
| StoryForm.ToggleSelects | src/components/StoryForm.tsx:43 | toggling an unselected character appends it when fewer than three are selected, and changes nothing when three are |
| StoryForm.TogglePreservesSelection | src/components/StoryForm.tsx:38-45 | from a valid selection (options only, no duplicates, at most three) a toggle gives a valid selection |
| StoryForm.ToggleTwice | src/components/StoryForm.tsx:41-43 | selecting and then deselecting a character restores the selection, when there was room for it |
| StoryForm.Form.HandleCharacterToggle | src/components/StoryForm.tsx:38-45 | the handler replaces only the characters, by their toggled list, and keeps the form invariant |
| StoryForm.Form.SetBabyName | src/components/StoryForm.tsx:80 | the name input replaces only the baby's name |
| StoryForm.Form.SelectAge | src/components/StoryForm.tsx:95 | the age select replaces only the age, with one of the age options |
| StoryForm.Form.SelectFeeling | src/components/StoryForm.tsx:137 | the feeling select replaces only the feeling |
| StoryForm.Form.SelectTheme | src/components/StoryForm.tsx:152 | the theme select replaces only the theme |
| StoryForm.Form.SelectSetting | src/components/StoryForm.tsx:167 | the setting select replaces only the setting |
| StoryForm.Form.SelectLesson | src/components/StoryForm.tsx:182 | the lesson select replaces only the lesson |
| StoryForm.HandleSubmit | src/components/StoryForm.tsx:47-58 | a story is requested exactly when the service is configured, the name is non-empty and a character is chosen, and it gets the form unchanged; the alert is shown exactly when the service is not configured |
| StoryForm.SubmitDisabled | src/components/StoryForm.tsx:197 | when not generating, the button is enabled exactly when submitting to a configured service would request a story; while generating it is disabled |
| Placeholders.FillRender | src/services/storyGenerator.ts:92-109 | a global replace of `{name}` on a rendered template is the same as filling that slot with literal text |
| Placeholders.AbsentSlotNotRendered | src/services/storyGenerator.ts:92-109 | a placeholder whose slot does not occur in the pieces does not occur in their text |
| Placeholders.PresentSlotRendered | src/services/storyGenerator.ts:92-109 | a placeholder whose slot occurs in the pieces occurs in their text |
| Placeholders.FillEachRender | src/services/storyGenerator.ts:92-109 | the chain of replaces on a rendered template equals the rendering of the chain of fills |
| Placeholders.FillEachSlots | src/services/storyGenerator.ts:92-109 | after the chain of fills a slot remains exactly when it was there and no binding had its key |
| Placeholders.LiteralRendered | src/services/storyGenerator.ts:92 | literal text among the pieces occurs in their rendering |
| StoryGenerator.Template | src/services/storyGenerator.ts:4-35 | every theme's template, including the fallback for themes without one, has eight sentences |
| StoryGenerator.ActionPool | src/services/storyGenerator.ts:37-41 | each theme's action pool has five actions |
| StoryGenerator.DiscoveryPool | src/services/storyGenerator.ts:43-51 | each setting's discovery pool has four discoveries |
| StoryGenerator.DiscoveryPoolChoice | src/services/storyGenerator.ts:106 | a setting without its own list gets the forest discoveries |
| StoryGenerator.NamePool | src/services/storyGenerator.ts:65-76 | every character has at least one name |
| StoryGenerator.NamePoolChoice | src/services/storyGenerator.ts:80 | a listed character has four names; any other character gets only "Friend" |
| StoryGenerator.GetRandomItem | src/services/storyGenerator.ts:114-116 | the drawn item is an element of the pool |
| StoryGenerator.Drawn | src/services/storyGenerator.ts:105-108 | the drawn action, discovery, friendly action and learning topic come from their pools |
| StoryGenerator.DrawnNames | src/services/storyGenerator.ts:79-80 | one name per character, each drawn from that character's pool |
| StoryGenerator.CharacterNames | src/services/storyGenerator.ts:78-83 | the dictionary has two entries per character |
| StoryGenerator.CharacterNamesAt | src/services/storyGenerator.ts:79-83 | the character at index i adds its drawn name under `character{i+1}Name` and its lower-cased type under `character{i+1}` |
| StoryGenerator.GenerateCharacterNames | src/services/storyGenerator.ts:64-86 | the loop builds the dictionary of drawn names and types for the characters in order |
| StoryGenerator.KeysDiffer | src/services/storyGenerator.ts:81-82 | name keys and type keys of different numbers differ, and a name key is never a type key |
| StoryGenerator.CharacterKeysDistinct | src/services/storyGenerator.ts:78-83 | no two dictionary entries share a key, so no assignment overwrites another |
| StoryGenerator.CharacterNamesBindName | src/services/storyGenerator.ts:78-83 | the dictionary binds `character{n}Name` exactly for n from 1 to the number of characters |
| StoryGenerator.CharacterNamesBindType | src/services/storyGenerator.ts:78-83 | the dictionary binds `character{n}` exactly for n from 1 to the number of characters |
| StoryGenerator.CharacterNamesPlain | src/services/storyGenerator.ts:81-82 | names and lower-cased types without braces are values that cannot form a new placeholder |
| StoryGenerator.ReplaceBasic | src/services/storyGenerator.ts:92-96 | the five fixed replaces are the global replaces of the form's bindings, in order |
| StoryGenerator.ReplaceNames | src/services/storyGenerator.ts:99-102 | the dictionary loop applies the global replace of each entry, in insertion order |
| StoryGenerator.ReplaceDynamic | src/services/storyGenerator.ts:105-109 | the four dynamic replaces use the drawn contents' bindings, in order |
| StoryGenerator.ReplacePlaceholders | src/services/storyGenerator.ts:88-112 | one sentence has the fixed, the dictionary and the dynamic bindings replaced, in that order |
| StoryGenerator.ReplaceTemplate | src/services/storyGenerator.ts:57-58 | each template sentence is filled with its own draws |
| StoryGenerator.ComposeText | src/services/storyGenerator.ts:57-59 | the filled sentences joined with one space are the story text |
| StoryGenerator.GenerateStory | src/services/storyGenerator.ts:53-62 | the story is the formatted text of the theme's template filled with the form, the drawn names and the drawn contents |
| StoryGenerator.Paragraphs | src/services/storyGenerator.ts:120-137 | no paragraph is empty |
| StoryGenerator.ParagraphsShape | src/services/storyGenerator.ts:120-137 | every piece of the `'. '` split except the last becomes a paragraph with the separator put back; a non-empty last piece becomes the last paragraph |
| StoryGenerator.ParagraphsConcat | src/services/storyGenerator.ts:118-139 | the paragraphs concatenated give the story text back, so the formatter loses and adds nothing but paragraph breaks |
| StoryGenerator.FormatStory | src/services/storyGenerator.ts:118-140 | the loop's result is the paragraphs joined by blank lines, which is the text with every `'. '` turned into `". \n\n"` |
| StoryGenerator.ParagraphBreaksJoin | src/services/storyGenerator.ts:118-139 | joining the paragraphs of a text by blank lines gives the text with a blank line after every `'. '` and nothing else changed |
| StoryGenerator.ParagraphBreaksKeep | src/services/storyGenerator.ts:118-139 | text without a `.` and not starting with a space that occurs in the input occurs in the formatted text |
| StoryGenerator.ParagraphBreaksOnlyBreaks | src/services/storyGenerator.ts:118-139 | text without a line break that occurs in the formatted text already occurred in the input |
| StoryProperties.SentenceBindsReplaced | src/services/storyGenerator.ts:88-112 | a sentence's bindings bind a key exactly when it is a fixed key or a dictionary key |
| StoryProperties.ReplacedGoneFromTemplate | src/services/storyGenerator.ts:88-112 | for any template, no replaced placeholder is left in the joined text |
| StoryProperties.UnreplacedStaysInTemplate | src/services/storyGenerator.ts:88-112 | a placeholder in some sentence that nothing replaces is left in the joined text |
| StoryProperties.BabyNameInTemplate | src/services/storyGenerator.ts:92 | a template with a `{babyName}` slot yields a text that contains the baby's name |
| StoryProperties.StoryKeepsText | src/services/storyGenerator.ts:53-62 | text without a `.` and not starting with a space that is in the joined sentences is in the formatted story |
| StoryProperties.StoryAddsOnlyBreaks | src/services/storyGenerator.ts:53-62 | text without a line break that is not in the joined sentences is not in the formatted story |
| StoryProperties.ReplacedGoneFromSentences | src/services/storyGenerator.ts:53-59 | the joined sentences contain no placeholder whose key was replaced |
| StoryProperties.ReplacedPlaceholdersGone | src/services/storyGenerator.ts:53-62 | the formatted story contains no placeholder whose key was replaced |
| StoryProperties.SelectedCharactersReplaced | src/services/storyGenerator.ts:99-102 | for each selected character, neither its name nor its type placeholder is left in the formatted story |
| StoryProperties.ThirdCharacterSentence | src/services/storyGenerator.ts:10 | every theme's template has a sentence with both third-character placeholders |
| StoryProperties.MissingThirdCharacterInSentences | src/services/storyGenerator.ts:78-102 | with fewer than three characters, `{character3Name}` and `{character3}` remain in the joined sentences |
| StoryProperties.MissingThirdCharacterLeftInText | src/services/storyGenerator.ts:53-102 | with fewer than three characters, `{character3Name}` and `{character3}` remain in the formatted story |
| StoryProperties.BabySentence | src/services/storyGenerator.ts:6 | every theme's template has a sentence with the baby's name |
| StoryProperties.BabyNameInText | src/services/storyGenerator.ts:92 | the formatted story contains the baby's name, for a name without a `.` that does not start with a space |
| GeminiText.Trim | src/services/geminiService.ts:158 | the result is a slice of the input with no space or line terminator at either end |
| GeminiText.MediaMarkerRemoved | src/services/geminiService.ts:93 | an `[IMAGE: description]` marker is removed completely, and the text after it is cleaned on its own |
| GeminiText.MediaMarkerFree | src/services/geminiService.ts:93 | a text without `[IMAGE:` goes through the marker removal unchanged |
| GeminiText.ImageMarkerRemoved | src/services/geminiService.ts:161-162 | a case-insensitive `[image:` marker is removed up to its first `]`, and the text after it is cleaned on its own |
| GeminiText.PhraseRemoved | src/services/geminiService.ts:168 | replacing every `*` removes all stars |
| GeminiText.BlankLinesCollapsed | src/services/geminiService.ts:175 | after the blank-line rule no three line breaks follow each other |
| GeminiText.BlanksKeepBreaks | src/services/geminiService.ts:178 | collapsing spaces and tabs does not create three consecutive line breaks |
| GeminiText.BlanksCollapsed | src/services/geminiService.ts:178 | after collapsing, no tab and no two adjacent spaces remain |
| GeminiText.ReplaceMatches | src/services/geminiService.ts:161-178 | a replacement no longer than the shortest match never lengthens the text |
| GeminiText.ReplaceProvenance | src/services/geminiService.ts:161-178 | every character of the result comes from the text or from the replacement |
| GeminiText.FormatStoryCleans | src/services/geminiService.ts:156-181 | the formatted story is no longer than the input and has no star, no tab, no double space and no three line breaks in a row |
| GeminiText.CleanStory | src/services/geminiService.ts:93 | the cleaned story is no longer than the input and has no three line breaks in a row |
| GeminiText.MediaMarkerSkip | src/services/geminiService.ts:93 | text without `[` is copied unchanged by the marker removal, which carries on after it |
| GeminiText.CleanStoryDropsMarker | src/services/geminiService.ts:93 | an `[IMAGE: description]` marker that follows text without `[` is removed, and the story is cleaned as if it had never been there |
| GeminiText.CleanStoryMarkerFree | src/services/geminiService.ts:93 | a story without `[IMAGE:` is changed only by the blank-line rule |
| GeminiService.Backoff | src/services/geminiService.ts:74 | the first wait is one second and each wait doubles the previous one |
| GeminiService.StopsAfterUnique | src/services/geminiService.ts:66-88 | at most one number of calls fits the way the loop stops |
| GeminiService.CallsFrom | src/services/geminiService.ts:66-85 | from an attempt on, the calls stop at the first answer that is not an overload error, or at the last permitted attempt |
| GeminiService.RetryCalls | src/services/geminiService.ts:66-88 | the number of calls: at most the retry limit, at least one when the limit is positive, every answer but the last is an overload error, and an earlier stop is on an answer that is not one |
| GeminiService.GenerateContentWithRetry | src/services/geminiService.ts:63-89 | the loop makes that many calls, returns the last call's answer (none when no attempt is permitted) and waits the backoff delays between calls |
| GeminiService.SuccessAfterOverloads | src/services/geminiService.ts:66-80 | an answer after k overload errors, within the limit, is reached with k+1 calls |
| GeminiService.FirstErrorNotRetried | src/services/geminiService.ts:73-84 | an answer that is not an overload error ends the loop after one call |
| GeminiService.AllOverloaded | src/services/geminiService.ts:73-84 | when every attempt is overloaded, all of them are made and the last error is returned |
| GeminiService.RetrySucceedsIff | src/services/geminiService.ts:66-88 | the loop ends with an answer exactly when, within the limit, an answer comes after nothing but overload errors |
| GeminiService.DefaultWaits | src/services/geminiService.ts:63-78 | with the default three attempts the waits are one and then two seconds |
| GeminiService.PromptFields | src/services/geminiService.ts:131-147 | the prompt has eight substitutions |
| GeminiService.PromptHasField | src/services/geminiService.ts:131-152 | the prompt contains each of its substitutions |
| GeminiService.PromptMentionsFields | src/services/geminiService.ts:131-147 | the prompt contains the baby's name and age, the theme, the setting, the feeling and the lesson |
| GeminiService.PromptMentionsCharacters | src/services/geminiService.ts:127-136 | the prompt names every chosen character, and without characters it asks for friendly animal characters |
| GeminiService.ProcessStoryWithMedia | src/services/geminiService.ts:91-112 | the content has the cleaned text (no longer than the story, no three line breaks in a row), no images, a video flag that says whether the video service is available, and no video URL |
| GeminiService.ProcessedTextDropsMarker | src/services/geminiService.ts:91-112 | an `[IMAGE: description]` marker that follows text without `[` is dropped from the content's text |
| GeminiService.Respond | src/services/geminiService.ts:49-60 | an answer becomes the cleaned and processed story; an error becomes the generic failure message |
| GeminiService.GenerateWithModel | src/services/geminiService.ts:48-60 | the retry loop runs with its default of three attempts, makes at least one call, and its last answer decides the result |
| GeminiService.Service.constructor | src/services/geminiService.ts:21-39 | the service is configured exactly when a non-empty key is given and both steps of the initialization succeed, and the fields hold what each path leaves in them |
| GeminiService.Service.GenerateStory | src/services/geminiService.ts:41-61 | an unconfigured service fails with the configuration message and makes no call; a configured one sends the prompt for the form and returns the result of its final call |

## Left out

- Calls to the Gemini SDK, the network and `await` are not modelled. A
  call's result is the next entry of a list of outcomes that the caller
  passes in. An error's message is the outcome's text; an error without a
  message has an empty one, which makes JavaScript's `error.message &&`
  test false.
- `response.text()` is treated as never throwing.
- The SDK objects are represented by the key (`genAI`) and the model name
  (`model`).
- `InitStep` stands for where the initialization's `try` block throws.
- The environment variable is a parameter of the constructor.
- `setTimeout`, `console` logging and `alert` have no effect in the model.
  The retry loop returns the list of delays it would wait. The submit guard
  returns an `Alert` action.
- `generateVideoAsync` and the video and image services are not part of
  this model. `videoService.isAvailable()` is a boolean parameter.
- GeminiService.ProcessStoryWithMedia drops the `babyName` parameter,
  because only the video request uses it.
- `story.split('. ')` and `paragraphs.join('\n\n')` are written out as
  `Split` and `Join` on `seq<char>`.
- The React component, rendering, event objects and the `isGenerating`
  prop are not modelled, except the `disabled` condition, which takes the
  prop as a parameter.
- `Math.random()` is not modelled. Each draw is an index passed in by the
  caller, and `DrawsInRange` and `NamePicksInRange` require the index to be
  within the pool.
- StoryGenerator.Drawn does not state which index picks which element. It
  states only that the element comes from the right pool.
- StoryGenerator.Template and StoryGenerator.ActionPool state only the size
  of the table. Which table a theme selects is what their bodies say.
- Replacement strings are inserted literally. JavaScript would expand
  `$&`-style patterns in a value. The form's values come from fixed option
  lists or a typed name, and the properties about surviving placeholders
  assume that no value contains `{` (the `Inputs` predicate of
  `story_properties.dfy`).
- StoryProperties.BabyNameInText requires a name without `.` that does
  not start with a space, because the formatter splits a name such as
  "Dr. Mia" across two paragraphs.
- `toLowerCase` is modelled on ASCII letters only. There is no Unicode case
  mapping.
- The table lookups (`templates[theme]`, `characterActions[theme]`,
  `names[character]`) are modelled as lookups over the listed keys.
  Inherited JavaScript object properties such as `constructor` are not
  modelled as keys.
- Case-insensitive matching in `formatStory` (the `i` flag) folds ASCII
  letters only.
- The regular expressions are written out as hand-made matchers for the
  exact patterns the source uses, not as a general regular-expression
  engine.
- GeminiText.FormatStoryCleans does not claim idempotence, because the
  source's pipeline is not idempotent.
